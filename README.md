# FriendsStackView in Dafny

This project models the logic of the FriendsStackView playground. The playground lays out friend
avatar cards in a grid made of a vertical stack view of horizontal stack views. The model covers:

- **The chunker.** `CollectionType.chunk(withDistance:)` splits an ordered collection into
  consecutive arrays of `distance` elements, and the last array may be shorter. The source keeps a
  cursor `index` that a generator advances with `advancedBy(distance, limit: endIndex)`, and
  `Array(generator)` drains that generator. `Chunking.Chunk` is that loop over a `seq<T>` with an
  integer cursor. It is proved equal to the reference function `Chunking.Chunks`, which is defined
  separately with `min` instead of `advancedBy`. The lemmas about `Chunks` state coverage, chunk
  sizes, the chunk count (n / distance rounded up), where chunk k starts and ends, and that these
  properties pin down the result uniquely. A `seq` is a value, so the input collection is left
  untouched by construction, just as the source's non-mutating extension method leaves it.
- **The source's behaviour for every distance.** `Chunking.ChunkOutcomeOf` covers this.
  - An empty collection yields no chunks, whatever the distance.
  - A distance of 0 never ends: the cursor never moves, so empty arrays come forever.
  - A negative distance traps: the first pull slices a range whose end lies below its start.
- **The avatar icon.** `Friends.AvatarIconName` maps a gender to the name of its image resource.
  `Other` gets no image, and that is a valid outcome.
- **The name label.** `Friends.NameLabel` gives the first character of the first name, then
  `". "`, then the last name. The source's force-unwrap on an empty first name becomes the error
  outcome `EmptyFirstName`.
- **The grid builder.** This is the nested loop that adds one horizontal line per chunk to the
  container, and one card per friend to each line. `Grid.StackView` is a class whose
  `arrangedSubviews` sequence is the only state that `addArrangedSubview` changes. `Grid.BuildGrid`
  is the nested loop, proved against the reference function `Grid.Rows`.

Modules: `Wrappers` (Option and Result), `Chunking`, `Friends`, `Grid`.

The corrected chunker `CheckedChunk` rejects any distance below 1 with `InvalidArgument`. The
code as written never raises that error:
- an empty collection yields `[]` for any distance;
- a non-empty collection with distance 0 loops forever;
- a non-empty collection with a negative distance traps.

`ChunkOutcomeOf` models the code as written (see Findings).

## Model

| member | source | states |
|---|---|---|
| `Chunking.Chunk` | FriendsStackView.playground/Contents.swift:34-40 | For a positive distance, the cursor loop returns exactly `Chunks(s, distance)`. That result is a chunking of `s`, it has ceil(len(s) / distance) chunks, and the last chunk has 1 + (len(s) - 1) mod distance elements. |
| `Chunking.Advance` | FriendsStackView.playground/Contents.swift:37-38 | `advancedBy(n, limit:)` on an integer index. Moving forward from at or below the limit gives min(i + n, limit), so the cursor never passes the end. Moving backward from below the limit gives i + n. At the limit it stays at the limit. |
| `Chunking.ChunksFlatten` | FriendsStackView.playground/Contents.swift:34-40 | Concatenating the chunks in order gives back the input exactly: nothing is dropped, duplicated or reordered. |
| `Chunking.ChunksSizes` | FriendsStackView.playground/Contents.swift:38 | Every chunk has between 1 and distance elements, and every chunk except the last has exactly distance elements. |
| `Chunking.ChunksIsChunking` | FriendsStackView.playground/Contents.swift:34-40 | `Chunks(s, distance)` meets all of `IsChunkingOf`: coverage, no empty chunk, no chunk over distance, and only the last chunk short. |
| `Chunking.ChunksCount` | FriendsStackView.playground/Contents.swift:35-40 | There are ceil(len(s) / distance) chunks, one per generator pull that does not return nil. An empty input gives none. |
| `Chunking.ChunksLastLength` | FriendsStackView.playground/Contents.swift:38 | A non-empty input has a last chunk, and it holds 1 + (len(s) - 1) mod distance elements. |
| `Chunking.ChunkAt` | FriendsStackView.playground/Contents.swift:36-38 | Chunk k starts inside the input at k * distance and is the slice `s[k*distance .. min((k+1)*distance, len(s))]`. |
| `Chunking.ChunkingUnique` | FriendsStackView.playground/Contents.swift:34-40 | Any sequence of chunks that meets `IsChunkingOf(chunks, s, distance)` equals `Chunks(s, distance)`. |
| `Chunking.ChunkOutcomeOf` | FriendsStackView.playground/Contents.swift:34-40 | The source's result for every integer distance. It returns chunks exactly when the input is empty or distance > 0, and those chunks form a chunking. It never ends exactly when the input is non-empty and distance is 0. In the remaining case it traps. |
| `Chunking.ZeroDistanceStalls` | FriendsStackView.playground/Contents.swift:37-38 | With distance 0 on a non-empty input, the first pull leaves the cursor at 0 and yields an empty slice, so every pull repeats and draining never ends. |
| `Chunking.NegativeDistanceTraps` | FriendsStackView.playground/Contents.swift:37-38 | With a negative distance on a non-empty input, the cursor goes below the start, so the first pull slices a range whose end lies below its start, which traps. |
| `Chunking.CheckedChunk` | FriendsStackView.playground/Contents.swift:34-40 | The corrected chunker. It fails with `InvalidArgument` exactly when distance <= 0. Otherwise it returns a chunking of the input with ceil(len(s) / distance) chunks. |
| `Chunking.SevenLettersByThree` | FriendsStackView.playground/Contents.swift:34-40 | "ABCDEFG" in chunks of 3 is ["ABC", "DEF", "G"]. |
| `Friends.AvatarIconName` | FriendsStackView.playground/Contents.swift:53-60 | The mapping is total over `Gender`. There is no image exactly for `Other`, and every image name is non-empty. |
| `Friends.AvatarIconSeparatesGenders` | FriendsStackView.playground/Contents.swift:53-60 | Two genders get the same icon outcome exactly when they are the same gender: "avatar_male", "avatar_female" and no image are all different. |
| `Friends.NameLabel` | FriendsStackView.playground/Contents.swift:70 | The label is an error exactly when the first name is empty, which is the force-unwrap trap. Otherwise it is 3 characters longer than the last name. |
| `Friends.NameLabelParts` | FriendsStackView.playground/Contents.swift:70 | A label splits back into its parts: character 0 is the first name's initial, characters 1-2 are ". ", and the rest is the last name. |
| `Friends.NameLabelSameIff` | FriendsStackView.playground/Contents.swift:70 | Two friends get the same label exactly when their initials match and their last names match. |
| `Friends.BeyonceLabel` | FriendsStackView.playground/Contents.swift:70 | Friend "Beyoncé" "Knowles" gets the label "B. Knowles". |
| `Friends.FriendView` | FriendsStackView.playground/Contents.swift:79-89 | A friend's card has no image exactly for `Other`, shows "avatar_male" for `Male` and "avatar_female" for `Female`, and its text is the first name's initial, then ". ", then the whole last name (3 characters longer than the last name). |
| `Grid.StackView.constructor` | FriendsStackView.playground/Contents.swift:121 | A new line stack view has no arranged subviews. |
| `Grid.StackView.AddArrangedSubview` | FriendsStackView.playground/Contents.swift:127-132 | Appends one view at the end of the arranged subviews and changes nothing else. |
| `Grid.CardsAt` | FriendsStackView.playground/Contents.swift:127-130 | A line has one card per friend, and card j is friend j's card. |
| `Grid.RowsAt` | FriendsStackView.playground/Contents.swift:120-133 | The grid has one row per line and one card per friend, and row i, card j is the card of friend j of line i. |
| `Grid.RowsFlatten` | FriendsStackView.playground/Contents.swift:120-133 | Read row by row, the cards are the cards of all friends of all lines, in order. |
| `Grid.BuildGrid` | FriendsStackView.playground/Contents.swift:120-133 | Afterwards the container's arranged subviews are its earlier ones followed by `Rows(lines)`, one row per line in order and one card per friend in order. |
| `Grid.GridCoversFriends` | FriendsStackView.playground/Contents.swift:108-133 | Chunking friends by n and building rows gives ceil(len(friends) / n) rows. Read in order, the rows give one card per friend, in the friends' order. |
| `Grid.LayoutFriends` | FriendsStackView.playground/Contents.swift:108-133 | The playground's layout step makes a fresh container. Its rows are `Rows(Chunks(friends, n))`: there are ceil(len(friends) / n) of them, and flattened they give the friends' cards in order. |
| `Grid.PlaygroundRows` | FriendsStackView.playground/Contents.swift:92-108 | The seven playground friends in chunks of 4 make two chunks: the first four friends, then the last three. |
| `Grid.PlaygroundGrid` | FriendsStackView.playground/Contents.swift:92-133 | The playground grid has a row of 4 cards and a row of 3. Its third card is Buzz Lightyear's, with no image and the label "B. Lightyear". |

## Left out

- UIKit view construction and styling are not modelled: frames, colours, fonts, corner radius, border, content mode, stack view axis, alignment, spacing, distribution and Auto Layout constraints. They are framework calls with no behaviour visible in the source.
- `UIImage(named:)` image loading is not modelled. Only the resource name, or no image, is kept.
- `numberOfFriendsPerLine = Int(round(...))` and the `stackViewHeight` formula are not modelled. Both are `CGFloat` floating-point arithmetic. The layout takes an integer friends-per-line count above 0 as its input.
- The `#available` guard and the playground live-view hosting are left out, because they are runtime environment and I/O.
- The lazy `AnyGenerator`, the `defer` and the iterator protocol are modelled only by their effect: one loop iteration per pull, with the cursor moved only after the slice is read.
- `Chunking.Advance` models `advancedBy(_:limit:)` for a random-access integer index, which is what the playground's array has. The general forward-index version is not part of this model.
- `Friends.NameLabel`: `characters.first` is the first extended grapheme cluster. Here a string is a sequence of Unicode code points, so the label's initial is the first code point.
- `Friends.Friend`: the struct's default field values are omitted, because its only initialiser overwrites all three fields. The initialiser's default argument `aGender: Gender = .Male` is omitted too, because every call passes a gender.
- `Grid.BuildGrid`, `Grid.LayoutFriends`, `Grid.Cards` and `Grid.Rows` require every friend to have a non-empty first name, so the force-unwrap trap inside the grid loop is not modelled there; it is modelled only by `Friends.NameLabel`. The playground's seven friends meet the requirement, as `Grid.PlaygroundGrid` proves.
- `Grid.BuildGrid`: the container holds each finished line's contents as a value, not the line's stack view object. This drops aliasing between views. The source never uses it, because each line is complete before it is added and is not changed afterwards.

## Findings

| source | as written | input that shows it | evidently intended | confidence | as-written member | corrected member |
|---|---|---|---|---|---|---|
| FriendsStackView.playground/Contents.swift:36-38 | The generator tests only `index != endIndex` and never checks `distance`. With distance 0 the cursor never moves, so an empty array is yielded forever and `Array(generator)` never returns. The playground can reach this when `round(stackViewWidth / (avatarWidth + lineXSpacing))` is 0. | A non-empty collection with distance 0, for example the seven friends with `stackViewWidth` 40 | A distance below 1 is rejected with an explicit error | medium; not executed | `Chunking.ZeroDistanceStalls` | `Chunking.CheckedChunk` |
