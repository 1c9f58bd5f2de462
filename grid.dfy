/**
  The grid: the playground chunks its friends into lines, then, for every line in order,
  makes a horizontal stack view, appends one friend card per friend of the line in order,
  and appends that line to a vertical container stack view.
*/
module Grid {
  import opened Wrappers
  import opened Chunking
  import opened Friends

  /** A stack view, reduced to what the grid builder changes: the ordered list of its
      arranged subviews. */
  class StackView<V> {
    var arrangedSubviews: seq<V>

    constructor ()
      ensures arrangedSubviews == []
    {
      arrangedSubviews := [];
    }

    method AddArrangedSubview(v: V)
      modifies this
      ensures arrangedSubviews == old(arrangedSubviews) + [v]
    {
      arrangedSubviews := arrangedSubviews + [v];
    }
  }

  /** Every friend has a non-empty first name, which building a card needs. */
  predicate HasFirstNames(friends: seq<Friend>)
  {
    forall i :: 0 <= i < |friends| ==> friends[i].firstName != []
  }

  predicate LinesHaveFirstNames(lines: seq<seq<Friend>>)
  {
    forall i :: 0 <= i < |lines| ==> HasFirstNames(lines[i])
  }

  /** The cards of one line, left to right. */
  function Cards(friends: seq<Friend>): seq<FriendCard>
    requires HasFirstNames(friends)
  {
    if friends == [] then [] else [FriendView(friends[0])] + Cards(friends[1..])
  }

  /** The rows of the grid, top to bottom. */
  function Rows(lines: seq<seq<Friend>>): seq<seq<FriendCard>>
    requires LinesHaveFirstNames(lines)
  {
    if lines == [] then [] else [Cards(lines[0])] + Rows(lines[1..])
  }

  /** Card j of a line is the card of friend j. */
  lemma {:induction false} CardsAt(friends: seq<Friend>, j: nat)
    requires HasFirstNames(friends)
    ensures |Cards(friends)| == |friends|
    ensures j < |friends| ==> Cards(friends)[j] == FriendView(friends[j])
  {
    if friends != [] {
      CardsAt(friends[1..], if j > 0 then j - 1 else 0);
    }
  }

  /** The grid has one row per line and one card per friend, each in its place. */
  lemma {:induction false} RowsAt(lines: seq<seq<Friend>>, i: nat, j: nat)
    requires LinesHaveFirstNames(lines)
    ensures |Rows(lines)| == |lines|
    ensures i < |lines| ==> |Rows(lines)[i]| == |lines[i]|
    ensures i < |lines| && j < |lines[i]| ==> Rows(lines)[i][j] == FriendView(lines[i][j])
  {
    if lines != [] {
      RowsAt(lines[1..], if i > 0 then i - 1 else 0, j);
      if i == 0 {
        CardsAt(lines[0], j);
      }
    }
  }

  lemma HasFirstNamesConcat(a: seq<Friend>, b: seq<Friend>)
    requires HasFirstNames(a) && HasFirstNames(b)
    ensures HasFirstNames(a + b)
  {
    forall i | 0 <= i < |a + b| ensures (a + b)[i].firstName != [] {
      if i < |a| {
        assert (a + b)[i] == a[i];
      } else {
        assert (a + b)[i] == b[i - |a|];
      }
    }
  }

  lemma {:induction false} CardsConcat(a: seq<Friend>, b: seq<Friend>)
    requires HasFirstNames(a) && HasFirstNames(b)
    ensures HasFirstNames(a + b)
    ensures Cards(a + b) == Cards(a) + Cards(b)
  {
    HasFirstNamesConcat(a, b);
    if a == [] {
      assert a + b == b;
    } else {
      var ab := a + b;
      assert ab[0] == a[0];
      assert ab[1..] == a[1..] + b;
      assert HasFirstNames(a[1..]);
      CardsConcat(a[1..], b);
      assert Cards(ab) == [FriendView(a[0])] + Cards(a[1..] + b);
    }
  }

  /** Nothing is dropped or reordered: reading the rows in order gives the cards of all
      friends of all lines, in order. */
  lemma {:induction false} RowsFlatten(lines: seq<seq<Friend>>)
    requires LinesHaveFirstNames(lines)
    ensures HasFirstNames(Flatten(lines))
    ensures Flatten(Rows(lines)) == Cards(Flatten(lines))
  {
    if lines != [] {
      RowsFlatten(lines[1..]);
      CardsConcat(lines[0], Flatten(lines[1..]));
    }
  }

  /** Every chunk of friends with first names holds only friends with first names. */
  lemma ChunksHaveFirstNames(friends: seq<Friend>, n: int)
    requires n > 0 && HasFirstNames(friends)
    ensures LinesHaveFirstNames(Chunks(friends, n))
  {
    var lines: seq<seq<Friend>> := Chunks(friends, n);
    forall i: nat, j: nat | i < |lines| && j < |lines[i]|
      ensures lines[i][j].firstName != []
    {
      ChunkAt(friends, n, i);
      MulAtLeast(n, 1);
      assert lines[i][j] == friends[i * n + j];
    }
  }

  /** The grid of a list of friends: ceil(|friends| / n) rows, and reading them in order
      gives one card per friend in the order of `friends`. */
  lemma GridCoversFriends(friends: seq<Friend>, n: int)
    requires n > 0 && HasFirstNames(friends)
    ensures LinesHaveFirstNames(Chunks(friends, n))
    ensures |Rows(Chunks(friends, n))| == CeilDiv(|friends|, n)
    ensures Flatten(Rows(Chunks(friends, n))) == Cards(friends)
  {
    ChunksHaveFirstNames(friends, n);
    RowsFlatten(Chunks(friends, n));
    ChunksFlatten(friends, n);
    ChunksCount(friends, n);
    RowsAt(Chunks(friends, n), 0, 0);
  }

  /** The nested loop that fills the container: one horizontal line view per chunk, one
      card per friend of the chunk, both in order. */
  method BuildGrid(container: StackView<seq<FriendCard>>, lines: seq<seq<Friend>>)
    requires LinesHaveFirstNames(lines)
    modifies container
    ensures container.arrangedSubviews == old(container.arrangedSubviews) + Rows(lines)
  {
    for i := 0 to |lines|
      invariant container.arrangedSubviews == old(container.arrangedSubviews) + Rows(lines[..i])
    {
      var line := new StackView<FriendCard>();
      for j := 0 to |lines[i]|
        modifies line
        invariant line.arrangedSubviews == Cards(lines[i][..j])
      {
        line.AddArrangedSubview(FriendView(lines[i][j]));
        CardsConcat(lines[i][..j], [lines[i][j]]);
        assert lines[i][..j + 1] == lines[i][..j] + [lines[i][j]];
      }
      assert lines[i][..|lines[i]|] == lines[i];
      container.AddArrangedSubview(line.arrangedSubviews);
      RowsConcat(lines[..i], [lines[i]]);
      assert lines[..i + 1] == lines[..i] + [lines[i]];
    }
    assert lines[..|lines|] == lines;
  }

  lemma LinesHaveFirstNamesConcat(a: seq<seq<Friend>>, b: seq<seq<Friend>>)
    requires LinesHaveFirstNames(a) && LinesHaveFirstNames(b)
    ensures LinesHaveFirstNames(a + b)
  {
    forall i | 0 <= i < |a + b| ensures HasFirstNames((a + b)[i]) {
      if i < |a| {
        assert (a + b)[i] == a[i];
      } else {
        assert (a + b)[i] == b[i - |a|];
      }
    }
  }

  lemma {:induction false} RowsConcat(a: seq<seq<Friend>>, b: seq<seq<Friend>>)
    requires LinesHaveFirstNames(a) && LinesHaveFirstNames(b)
    ensures LinesHaveFirstNames(a + b)
    ensures Rows(a + b) == Rows(a) + Rows(b)
  {
    LinesHaveFirstNamesConcat(a, b);
    if a == [] {
      assert a + b == b;
    } else {
      var ab, rest := a + b, a[1..];
      assert ab[0] == a[0];
      assert ab[1..] == rest + b;
      assert LinesHaveFirstNames(rest) by {
        forall i | 0 <= i < |rest| ensures HasFirstNames(rest[i]) {
          assert rest[i] == a[i + 1];
        }
      }
      RowsConcat(rest, b);
      calc {
        Rows(ab);
        [Cards(a[0])] + Rows(rest + b);
        [Cards(a[0])] + (Rows(rest) + Rows(b));
        ([Cards(a[0])] + Rows(rest)) + Rows(b);
      }
    }
  }

  /** The playground's layout step: chunk the friends into lines of `friendsPerLine`, make
      the vertical container and fill it. */
  method LayoutFriends(friends: seq<Friend>, friendsPerLine: int)
    returns (container: StackView<seq<FriendCard>>)
    requires friendsPerLine > 0 && HasFirstNames(friends)
    ensures fresh(container)
    ensures LinesHaveFirstNames(Chunks(friends, friendsPerLine))
    ensures container.arrangedSubviews == Rows(Chunks(friends, friendsPerLine))
    ensures |container.arrangedSubviews| == CeilDiv(|friends|, friendsPerLine)
    ensures Flatten(container.arrangedSubviews) == Cards(friends)
  {
    var newFriends := Chunk(friends, friendsPerLine);
    GridCoversFriends(friends, friendsPerLine);
    container := new StackView<seq<FriendCard>>();
    BuildGrid(container, newFriends);
  }

  /** The seven friends the playground lays out. */
  function PlaygroundFriends(): seq<Friend>
  {
    [ Friend("Beyoncé", "Knowles", Female),
      Friend("Kobe", "Bryant", Male),
      Friend("Buzz", "Lightyear", Other),
      Friend("Walt", "Disney", Male),
      Friend("Bruce", "Wayne", Male),
      Friend("Natasha", "Romanov", Female),
      Friend("Marie", "Curie", Female) ]
  }

  /** Seven friends, four per line: a row of four, then a row of three. */
  lemma PlaygroundRows()
    ensures |Chunks(PlaygroundFriends(), 4)| == 2
    ensures Chunks(PlaygroundFriends(), 4)[0] == PlaygroundFriends()[..4]
    ensures Chunks(PlaygroundFriends(), 4)[1] == PlaygroundFriends()[4..]
  {
    var s := PlaygroundFriends();
    ChunksCount(s, 4);
    assert CeilDiv(7, 4) == 2;
    ChunkAt(s, 4, 0);
    ChunkAt(s, 4, 1);
  }

  /** The playground's grid: a row of four cards and a row of three; the third card of the
      first row is Buzz Lightyear's, which has no avatar image. */
  lemma PlaygroundGrid()
    ensures HasFirstNames(PlaygroundFriends())
    ensures LinesHaveFirstNames(Chunks(PlaygroundFriends(), 4))
    ensures |Rows(Chunks(PlaygroundFriends(), 4))| == 2
    ensures |Rows(Chunks(PlaygroundFriends(), 4))[0]| == 4
    ensures |Rows(Chunks(PlaygroundFriends(), 4))[1]| == 3
    ensures Rows(Chunks(PlaygroundFriends(), 4))[0][2] == FriendCard(None, "B. Lightyear")
  {
    var s := PlaygroundFriends();
    assert HasFirstNames(s) by {
      forall i | 0 <= i < |s| ensures s[i].firstName != [] {
      }
    }
    PlaygroundRows();
    ChunksHaveFirstNames(s, 4);
    var lines := Chunks(s, 4);
    RowsAt(lines, 0, 2);
    RowsAt(lines, 1, 0);
    assert lines[0][2] == Friend("Buzz", "Lightyear", Other);
    assert "Buzz"[0] == 'B';
    assert ['B'] + ". " + "Lightyear" == "B. Lightyear";
  }
}
