# Playset expression engine, modelled in Dafny

This project models the playset engine of a music player. A *playset* is a named
expression over songs. An expression (`SongTree`) is a union, intersection or
difference of two subtrees, or a leaf (`SongSet`). A leaf is either a literal
set of songs (`Terminal`) or a reference by name to another playset
(`NonTerminal`). The engine has four parts:
- `flatten` evaluates an expression against the library's map of named playsets.
- A postfix serializer writes an expression as text over a small alphabet of
  control characters.
- A single-pass stack parser reads that text back.
- `push_empty_set` adds an empty playset to the library.

Files:
- `wrappers.dfy` (`Wrappers`): `Option` and `Result`. Every `unwrap()` panic of
  the source becomes an explicit failure.
- `pset_format.dfy` (`PsetFormat`): the six control characters and the
  three-case operator enum.
- `song_trees.dfy` (`SongTrees`): songs, expressions, playsets, `flatten`, and
  the lemmas on evaluation.
- `pset_codec.dfy` (`PsetCodec`): the serializer, the parser and the round-trip proof.
  - `Step` states each arm of the parser's loop, `Run` the whole loop, and
    `Parse` the whole function.
  - `FromPsetString` is the source's loop, with its four mutable locals. It is
    proved equal to `Parse`.
  - `IsPset(t, s)` says that `s` is an encoding of `t` for some iteration order
    of every literal set. The source iterates a `HashSet`, so that order is left
    unspecified. The serializer methods establish `IsPset`.
  - `RoundTrip` proves that parsing *any* such encoding gives back the tree.
    It needs two conditions: no name contains a control character, and the
    song resolver returns each literal song from its name.
- `playsets.dfy` (`Playsets`): `empty_terminal`, `Playset::from_pset_string`,
  and the `Library` class. `push_empty_set` updates the `sets` map in place.

Design choices:
- **Evaluation can diverge.** `flatten` has no cycle guard: a playset that
  refers to itself recurses until the stack overflows. The model adds a `fuel`
  argument that only a reference consumes. Running out is reported as
  `DepthExceeded`.
  - `SelfReferenceDiverges` shows that no amount of fuel evaluates a
    self-reference.
  - `FuelMonotone` shows that more fuel never changes a result that did not
    already run out of fuel.
  - `RankedNeverExhausts` shows that on an acyclic name graph, fuel above the
    ranks is always enough.
- **"U" is not the universal set to a reference.** The universal set is kept
  outside `sets`. `NonTerminal("U")` fails with `MissingSet("U")` as long as no
  subset named "U" is in `sets`. `push_empty_set("U")` or a subset file named U
  would add one, and the reference would then reach that subset, not the
  universal set. The model follows the code here. An expression such as
  "U minus X" therefore does not evaluate to the songs outside X.
- **Only the code's failures are modelled.** The code has no cyclic-reference error, no rejection of a duplicate playset
  name, and no error for trailing operands or an unterminated literal set.
  - `push_empty_set` silently overwrites an existing playset.
  - At the end of input the parser returns the top of the stack and ignores
    the rest.
- **Songs compare on all five fields.** Song equality is structural over all
  five fields, as the source derives it, not by name alone.

## Model

| member | source | states |
|---|---|---|
| PsetFormat.ConstantValues | src/playset/pset_format.rs:1-7 | the delimiters are 0x01, 0x02, 0x03 and the operators 0x10, 0x11, 0x12 |
| PsetFormat.DelimitersDistinct | src/playset/pset_format.rs:1-3 | the three delimiters are pairwise distinct |
| PsetFormat.OperatorRangeExact | src/playset/pset_format.rs:5-7 | the range `UNION..=DIFFERENCE` matches exactly the three operator characters |
| PsetFormat.DelimitersOutsideOperatorRange | src/playset/pset_format.rs:1-7 | no delimiter lies in the operator range, so the parser's arms are disjoint |
| PsetFormat.ControlCharsNonPrintable | src/playset/pset_format.rs:1-7 | every control character is below 0x20, so printable name characters go to the name-buffer arm |
| PsetFormat.OpChar | src/playset/playset.rs:100-106 | the character written for an operator lies in the operator range |
| PsetFormat.OpOfChar | src/playset/playset.rs:141-144 | the operator built from a character of the range is the one written as that character |
| PsetFormat.OpCharRoundTrip | src/playset/playset.rs:141-144 | reading back the character written for an operator gives the same operator |
| SongTrees.Apply | src/playset/playset.rs:84-89 | the result draws only on the operands; union keeps both, intersection keeps exactly the common songs, difference keeps the left songs that are not on the right |
| SongTrees.FlattenSet | src/playset/playset.rs:40-47 | a literal gives its songs; a `MissingSet` failure names a key absent from the map, and either the leaf itself or some playset of the library refers to it (its case behaviour is stated by FlattenTerminal and FlattenNonTerminal) |
| SongTrees.FlattenTree | src/playset/playset.rs:81-96 | a `MissingSet` failure names a key absent from the map, referred to by the tree or by some playset of the library (its case behaviour is stated by FlattenTerminal, FlattenNonTerminal and FlattenOperation) |
| SongTrees.FlattenTerminal | src/playset/playset.rs:42 | a literal leaf flattens to exactly its songs, in any library |
| SongTrees.FlattenNonTerminal | src/playset/playset.rs:43-45 | a reference flattens like the tree stored under its name, and fails with `MissingSet` when the name is absent |
| SongTrees.FlattenOperation | src/playset/playset.rs:84-90 | an operation succeeds iff both operands do; its songs are then the union, the intersection, or the left-minus-right difference |
| SongTrees.UnionIntersectionCommute | src/playset/playset.rs:85-86 | union and intersection give the same songs with the operands swapped |
| SongTrees.UnionIntersectionAssociate | src/playset/playset.rs:85-86 | union and intersection are associative under flattening, errors included |
| SongTrees.UnionIdempotent | src/playset/playset.rs:85 | the union of a tree with itself flattens like the tree |
| SongTrees.DifferenceOrderSensitive | src/playset/playset.rs:87 | swapping the operands of a difference changes its result |
| SongTrees.UniversalSetNotReferenceable | src/playset/playset.rs:43-45 | a reference to "U" fails when "U" is not a key of the map, as the universal set is kept outside it |
| SongTrees.FuelMonotone | src/playset/playset.rs:40-47 | once evaluation does not run out of fuel, more fuel gives the same result |
| SongTrees.SelfReferenceDiverges | src/playset/playset.rs:43-45 | a playset referring to itself never flattens, whatever the fuel, because there is no cycle guard |
| SongTrees.RankedNeverExhausts | src/playset/playset.rs:43-45 | on a ranked (acyclic) name graph, fuel above the ranks never runs out |
| PsetCodec.SetToPsetString | src/playset/playset.rs:48-65 | a literal set is written as `SET_START`, each song name followed by `SEPERATOR` in some iteration order visiting each song once, then `SET_END`; a reference as its name followed by `SEPERATOR` |
| PsetCodec.TreeToPsetString | src/playset/playset.rs:98-112 | the output is a postfix encoding: left operand, right operand, operator character |
| PsetCodec.Step | src/playset/playset.rs:122-153 | one character fails exactly at the two `unwrap()`s: a separator inside a set whose name does not resolve, or an operator with fewer than two operands; otherwise at most one operand is pushed (each arm is stated by the Run* lemmas below) |
| PsetCodec.Parse | src/playset/playset.rs:113-159 | an `UnresolvedSong` failure names a name that does not resolve, a `MissingOperand` failure needs an operator character in the input, and empty input fails with `EmptyStack` (its behaviour is stated by RoundTrip, ParseReturnsTop and the Parse* lemmas) |
| PsetCodec.FromPsetString | src/playset/playset.rs:113-159 | the loop over the characters gives exactly the result of the token-by-token specification `Parse` |
| PsetCodec.RunSeparatorOutsideSet | src/playset/playset.rs:127-130 | a separator outside a set pushes a reference to the buffered name and clears the name buffer |
| PsetCodec.RunSeparatorInsideSet | src/playset/playset.rs:123-126 | a separator inside a set adds the resolved song and clears the name buffer, or fails when the name does not resolve |
| PsetCodec.RunSetStart | src/playset/playset.rs:132-134 | `SET_START` turns on collecting, even inside a set |
| PsetCodec.RunSetEnd | src/playset/playset.rs:135-139 | `SET_END` pushes the collected songs as a literal, clears the set buffer and stops collecting |
| PsetCodec.RunOperator | src/playset/playset.rs:141-148 | an operator pops the right operand, then the left, and pushes the operation; it fails with fewer than two operands |
| PsetCodec.RunName | src/playset/playset.rs:150-152 | non-control characters are appended to the name buffer, inside or outside a set |
| PsetCodec.RunAppend | src/playset/playset.rs:121-154 | scanning a concatenation scans the first part, then the second, and stops at the first failure |
| PsetCodec.RunSongNames | src/playset/playset.rs:123-126 | inside a set, the names of resolvable songs add exactly those songs to the set buffer |
| PsetCodec.RunEncoding | src/playset/playset.rs:98-159 | from a state outside any set with empty buffers, scanning an encoding of a tree pushes exactly that tree |
| PsetCodec.RoundTrip | src/playset/playset.rs:98-159 | parsing any encoding of a tree with control-free names and resolvable songs gives back the tree |
| PsetCodec.RoundTripFlatten | src/playset/playset.rs:98-159 | the parsed tree therefore flattens like the original in every library |
| PsetCodec.SeparatorInNameBreaksRoundTrip | src/playset/playset.rs:59-62 | for any control-free x and y, the reference named x, separator, y is encoded as such, yet is read back as the reference named y |
| PsetCodec.ParseNoOperand | src/playset/playset.rs:158 | input that pushes no operand (empty, or only name characters) fails with `EmptyStack` |
| PsetCodec.ParseOneOperand | src/playset/playset.rs:141-143 | an operator with one operand on the stack fails with `MissingOperand` |
| PsetCodec.ParseReturnsTop | src/playset/playset.rs:155-158 | at the end of input the top operand is returned; deeper operands, a leftover name and an unterminated set are ignored, including songs that set has already collected |
| PsetCodec.RunOpenSet | src/playset/playset.rs:123-152 | an open set collects its resolvable songs and a trailing name without touching the operand stack |
| PsetCodec.ParseUnresolvedSong | src/playset/playset.rs:124 | a literal song whose name does not resolve makes parsing fail with `UnresolvedSong` |
| Playsets.EmptyTerminal | src/playset/playset.rs:181-186 | the playset has the given name and flattens to the empty set in every library |
| Playsets.PlaysetFromPsetString | src/playset/playset.rs:187-192 | it succeeds exactly when parsing does and wraps the parsed tree under the name; any encoding of an encodable tree loads back as that tree |
| Playsets.PushedNameFlattensEmpty | src/playset/playset.rs:234-236 | after the push the name flattens to the empty set, whatever it held before, and every other key is bound as before |
| Playsets.LibraryExample | src/playset/playset.rs:40-96 | in a worked library, X = {a, b}, X joined with {c} gives {a, b, c}, and "U minus X" fails because "U" is not a key |
| Playsets.Library.constructor | src/playset/playset.rs:211-231 | the universal set is a literal named "U", held apart from the map of subsets, whose every key is its playset's name as the insert at line 223 makes it |
| Playsets.Library.PushEmptySet | src/playset/playset.rs:234-236 | `sets` maps the name to an empty literal playset, overwriting any entry of that name; other keys and the universal set are unchanged; every key stays equal to its playset's name |

## Left out

- `Song::from_path` reads audio tags from a file and converts a floating-point
  duration. It is modelled as a resolver parameter (`Resolver`) that returns a
  song or nothing; its I/O is not modelled.
- `Library::initialize` scans directories and reads files. Only the shape of
  the library it builds is modelled, by `Library.constructor`: a literal
  universal set named "U", and a map whose every key is its playset's name.
  The constructor accepts any such map, not only one parsed from files. The
  directory I/O and the panics on I/O errors are not modelled.
- `Playset::write_to_file` builds a path and writes a file. Its only logic,
  the serializer call, is modelled by `TreeToPsetString`.
- PsetCodec.Resolver: `Song::from_path` always returns a song whose name is its
  argument. The model's resolver may return any song, or none; no proof
  relies on the stricter behaviour.
- `println!` debug output is not modelled.
- `RefCell`/`Rc` sharing is not modelled: subtrees are owned values.
- The operator is stored as a character in the source and as a three-case enum
  in the model. The `unreachable!()` arm of `flatten` therefore has no
  counterpart. The parser only ever builds operators from the three range
  characters.
- SongTrees.FlattenTree: a recursion on a cyclic name graph that does not
  terminate (ending in a stack overflow) is modelled as the failure
  `DepthExceeded` once the fuel runs out.
- PsetCodec.TreeToPsetString is a recursive method rather than a function,
  because serializing a literal set depends on the set's unspecified iteration
  order. Its contract holds for every order.
