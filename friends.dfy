/**
  The friend record and the two rules that turn one friend into what its card shows: the
  avatar image chosen by gender, and the "first initial. last name" label.
*/
module Friends {
  import opened Wrappers

  datatype Gender = Male | Female | Other

  /** A friend as the playground stores one. The record's default field values ("John",
      "Doe", Male) are always overwritten by its initialiser, so they are not modelled. */
  datatype Friend = Friend(firstName: string, lastName: string, gender: Gender)

  /** Name of the image resource `makeAvatarIcon` shows for a gender; `Other` shows no
      image at all, which is a valid outcome and not an error. */
  function AvatarIconName(g: Gender): (r: Option<string>)
    ensures r.None? <==> g == Other
    ensures r.Some? ==> |r.value| > 0
  {
    match g
    case Male => Some("avatar_male")
    case Female => Some("avatar_female")
    case Other => None
  }

  /** The mapping tells every gender apart: two genders get the same icon outcome only when
      they are the same gender. */
  lemma AvatarIconSeparatesGenders(g1: Gender, g2: Gender)
    ensures AvatarIconName(g1) == AvatarIconName(g2) <==> g1 == g2
  {
    if g1 != g2 {
      assert "avatar_male"[7] != "avatar_female"[7];
    }
  }

  /** The source force-unwraps the first character of `firstName`, which traps on an empty
      name; here that trap is the outcome `Failure(EmptyFirstName)`. */
  datatype LabelError = EmptyFirstName

  /** The text of the name label: the first character of the first name, a full stop, a
      space, then the last name. */
  function NameLabel(f: Friend): (r: Result<string, LabelError>)
    ensures r.Failure? <==> f.firstName == []
    ensures r.Success? ==> |r.value| == |f.lastName| + 3
  {
    if f.firstName == [] then Failure(EmptyFirstName)
    else Success([f.firstName[0]] + ". " + f.lastName)
  }

  /** Reading a label back: its first character is the first name's initial, then come
      ". " and the whole last name. */
  lemma {:induction false} NameLabelParts(f: Friend)
    requires f.firstName != []
    ensures NameLabel(f).Success?
    ensures NameLabel(f).value[0] == f.firstName[0]
    ensures NameLabel(f).value[1..3] == ". "
    ensures NameLabel(f).value[3..] == f.lastName
  {
    var text := NameLabel(f).value;
    assert text == [f.firstName[0]] + (". " + f.lastName);
    assert text[1..] == ". " + f.lastName;
    assert text[1..][..2] == ". ";
    assert text[1..][2..] == f.lastName;
  }

  /** Two friends get the same label exactly when their first names share the initial and
      their last names agree: the rest of the first name and the gender are not shown. */
  lemma NameLabelSameIff(f1: Friend, f2: Friend)
    requires f1.firstName != [] && f2.firstName != []
    ensures NameLabel(f1) == NameLabel(f2) <==>
              f1.firstName[0] == f2.firstName[0] && f1.lastName == f2.lastName
  {
    NameLabelParts(f1);
    NameLabelParts(f2);
  }

  lemma BeyonceLabel()
    ensures NameLabel(Friend("Beyoncé", "Knowles", Female)) == Success("B. Knowles")
  {
    assert "Beyoncé"[0] == 'B';
    assert ['B'] + ". " + "Knowles" == "B. Knowles";
  }

  /** What one friend's card (`friendView`) holds, from top to bottom: the avatar image and
      the name label. */
  datatype FriendCard = FriendCard(icon: Option<string>, text: string)

  function FriendView(f: Friend): (c: FriendCard)
    requires f.firstName != []
    ensures c.icon.None? <==> f.gender == Other
    ensures f.gender == Male ==> c.icon == Some("avatar_male")
    ensures f.gender == Female ==> c.icon == Some("avatar_female")
    ensures |c.text| == |f.lastName| + 3
    ensures c.text[0] == f.firstName[0] && c.text[1..3] == ". " && c.text[3..] == f.lastName
  {
    NameLabelParts(f);
    FriendCard(AvatarIconName(f.gender), NameLabel(f).value)
  }
}
