/** Songs, set expressions and their evaluation (`flatten`), from
    src/playset/playset.rs. */
module SongTrees {

  import opened Wrappers
  import opened PsetFormat

  /** The source's `u64`. */
  type U64 = x: int | 0 <= x < 0x1_0000_0000_0000_0000

  /** A song record. Equality is structural over all five fields, as the
      derived `PartialEq`/`Hash` of the source compare them all. */
  datatype Song = Song(name: string, genre: string, artist: string, album: string, duration: U64)

  /** A leaf of an expression: a literal set of songs, or a reference by name
      to another playset. */
  datatype SongSet = Terminal(songs: set<Song>) | NonTerminal(name: string)

  /** An expression: a binary set operation over two owned subtrees, or a leaf. */
  datatype SongTree = Operation(op: Op, lhs: SongTree, rhs: SongTree) | Set(leaf: SongSet)

  /** A named expression. */
  datatype Playset = Playset(name: string, songs: SongTree)

  /** Why flattening fails. `MissingSet` is the panic of `unwrap()` on a failed
      map lookup; `DepthExceeded` stands for the unbounded recursion the source
      enters on a cyclic reference (the fuel of the model ran out). */
  datatype FlattenError = MissingSet(name: string) | DepthExceeded

  /** The set operation an operator denotes; difference is left minus right. */
  function Apply(op: Op, l: set<Song>, r: set<Song>): (s: set<Song>)
    ensures s <= l + r
    ensures op == Union ==> l <= s && r <= s
    ensures op == Intersection ==> s <= l && s <= r && l * r <= s
    ensures op == Difference ==> s <= l && s !! r && l - r <= s
  {
    match op
    case Union => l + r
    case Intersection => l * r
    case Difference => l - r
  }

  /** `SongSet::flatten`. Only a reference consumes fuel. */
  function FlattenSet(s: SongSet, m: map<string, Playset>, fuel: nat): (r: Result<set<Song>, FlattenError>)
    ensures r.Err? && r.error.MissingSet? ==> r.error.name !in m
    ensures r.Err? && r.error.MissingSet? ==>
      (s.NonTerminal? && r.error.name == s.name) || exists k :: k in m && r.error.name in Refs(m[k].songs)
    ensures s.Terminal? ==> r == Ok(s.songs)
    decreases fuel, s
  {
    match s
    case Terminal(songs) => Ok(songs)
    case NonTerminal(name) =>
      if name !in m then Err(MissingSet(name))
      else if fuel == 0 then Err(DepthExceeded)
      else FlattenTree(m[name].songs, m, fuel - 1)
  }

  /** `SongTree::flatten`: the left operand is evaluated before the right one. */
  function FlattenTree(t: SongTree, m: map<string, Playset>, fuel: nat): (r: Result<set<Song>, FlattenError>)
    ensures r.Err? && r.error.MissingSet? ==> r.error.name !in m
    ensures r.Err? && r.error.MissingSet? ==> r.error.name in Refs(t) || exists k :: k in m && r.error.name in Refs(m[k].songs)
    decreases fuel, t
  {
    match t
    case Set(leaf) => FlattenSet(leaf, m, fuel)
    case Operation(op, lhs, rhs) =>
      match FlattenTree(lhs, m, fuel)
      case Err(e) => Err(e)
      case Ok(l) =>
        match FlattenTree(rhs, m, fuel)
        case Err(e) => Err(e)
        case Ok(r) => Ok(Apply(op, l, r))
  }

  /** The names a tree refers to directly. */
  function Refs(t: SongTree): set<string>
  {
    match t
    case Set(Terminal(_)) => {}
    case Set(NonTerminal(n)) => {n}
    case Operation(_, lhs, rhs) => Refs(lhs) + Refs(rhs)
  }

  /** A literal leaf flattens to exactly its songs, in any library. */
  lemma FlattenTerminal(songs: set<Song>, m: map<string, Playset>, fuel: nat)
    ensures FlattenTree(Set(Terminal(songs)), m, fuel) == Ok(songs)
  {
  }

  /** A reference flattens to the flattening of the tree stored under its name,
      and fails when the name is not a key of the library. */
  lemma FlattenNonTerminal(name: string, m: map<string, Playset>, fuel: nat)
    ensures name !in m ==> FlattenTree(Set(NonTerminal(name)), m, fuel) == Err(MissingSet(name))
    ensures name in m && fuel > 0 ==>
      FlattenTree(Set(NonTerminal(name)), m, fuel) == FlattenTree(m[name].songs, m, fuel - 1)
  {
  }

  /** An operation succeeds exactly when both operands do, and then holds the
      union, intersection or left-minus-right difference of their songs. */
  lemma FlattenOperation(op: Op, lhs: SongTree, rhs: SongTree, m: map<string, Playset>, fuel: nat, x: Song)
    ensures FlattenTree(Operation(op, lhs, rhs), m, fuel).Ok?
      <==> FlattenTree(lhs, m, fuel).Ok? && FlattenTree(rhs, m, fuel).Ok?
    ensures FlattenTree(Operation(op, lhs, rhs), m, fuel).Ok? ==>
      var l, r := FlattenTree(lhs, m, fuel).value, FlattenTree(rhs, m, fuel).value;
      var v := FlattenTree(Operation(op, lhs, rhs), m, fuel).value;
      match op
      case Union => x in v <==> x in l || x in r
      case Intersection => x in v <==> x in l && x in r
      case Difference => x in v <==> x in l && x !in r
  {
  }

  /** Union and intersection are commutative under flattening. */
  lemma UnionIntersectionCommute(op: Op, a: SongTree, b: SongTree, m: map<string, Playset>, fuel: nat)
    requires op != Difference
    ensures FlattenTree(Operation(op, a, b), m, fuel).Ok? <==> FlattenTree(Operation(op, b, a), m, fuel).Ok?
    ensures FlattenTree(Operation(op, a, b), m, fuel).Ok? ==>
      FlattenTree(Operation(op, a, b), m, fuel) == FlattenTree(Operation(op, b, a), m, fuel)
  {
    var fa, fb := FlattenTree(a, m, fuel), FlattenTree(b, m, fuel);
    if fa.Ok? && fb.Ok? {
      assert Apply(op, fa.value, fb.value) == Apply(op, fb.value, fa.value);
    }
  }

  /** Union and intersection are associative under flattening. */
  lemma UnionIntersectionAssociate(op: Op, a: SongTree, b: SongTree, c: SongTree, m: map<string, Playset>, fuel: nat)
    requires op != Difference
    ensures FlattenTree(Operation(op, Operation(op, a, b), c), m, fuel)
         == FlattenTree(Operation(op, a, Operation(op, b, c)), m, fuel)
  {
    var fa, fb, fc := FlattenTree(a, m, fuel), FlattenTree(b, m, fuel), FlattenTree(c, m, fuel);
    if fa.Ok? && fb.Ok? && fc.Ok? {
      assert Apply(op, Apply(op, fa.value, fb.value), fc.value)
          == Apply(op, fa.value, Apply(op, fb.value, fc.value));
    }
  }

  /** The union of a tree with itself flattens like the tree. */
  lemma UnionIdempotent(a: SongTree, m: map<string, Playset>, fuel: nat)
    ensures FlattenTree(Operation(Union, a, a), m, fuel) == FlattenTree(a, m, fuel)
  {
    var fa := FlattenTree(a, m, fuel);
    if fa.Ok? {
      assert Apply(Union, fa.value, fa.value) == fa.value;
    }
  }

  /** Difference is order-sensitive: swapping its operands changes the result. */
  lemma DifferenceOrderSensitive(song: Song, m: map<string, Playset>, fuel: nat)
    ensures FlattenTree(Operation(Difference, Set(Terminal({song})), Set(Terminal({}))), m, fuel) == Ok({song})
    ensures FlattenTree(Operation(Difference, Set(Terminal({})), Set(Terminal({song}))), m, fuel) == Ok({})
  {
    var one, none := Set(Terminal({song})), Set(Terminal({}));
    assert FlattenTree(one, m, fuel) == Ok({song});
    assert FlattenTree(none, m, fuel) == Ok({});
    assert Apply(Difference, {song}, {}) == {song};
    assert Apply(Difference, {}, {song}) == {};
  }

  /** The universal set is kept outside the map, so a reference to "U" fails
      unless a playset of that name was added to the map. */
  lemma UniversalSetNotReferenceable(m: map<string, Playset>, fuel: nat)
    requires "U" !in m
    ensures FlattenTree(Set(NonTerminal("U")), m, fuel) == Err(MissingSet("U"))
  {
  }

  /** Fuel only bounds the depth of reference chains: once flattening does not
      run out of it, more fuel gives the same result. */
  lemma {:induction false} FuelMonotone(t: SongTree, m: map<string, Playset>, fuel: nat, more: nat)
    requires fuel <= more
    requires FlattenTree(t, m, fuel) != Err(DepthExceeded)
    ensures FlattenTree(t, m, more) == FlattenTree(t, m, fuel)
    decreases fuel, t
  {
    match t
    case Set(Terminal(_)) =>
    case Set(NonTerminal(name)) =>
      if name in m {
        FuelMonotone(m[name].songs, m, fuel - 1, more - 1);
      }
    case Operation(op, lhs, rhs) =>
      FuelMonotone(lhs, m, fuel, more);
      if FlattenTree(lhs, m, fuel).Ok? {
        FuelMonotone(rhs, m, fuel, more);
      }
  }

  /** A playset that refers to itself never flattens: the source has no cycle
      guard, so no amount of fuel suffices. */
  lemma {:induction false} SelfReferenceDiverges(name: string, m: map<string, Playset>, fuel: nat)
    requires name in m && m[name].songs == Set(NonTerminal(name))
    ensures FlattenTree(Set(NonTerminal(name)), m, fuel) == Err(DepthExceeded)
  {
    if fuel > 0 {
      SelfReferenceDiverges(name, m, fuel - 1);
    }
  }

  /** The name graph of a library is ranked: every playset refers only to
      playsets of lower rank (so the graph has no cycle). */
  ghost predicate WellRanked(m: map<string, Playset>, rank: map<string, nat>) {
    && m.Keys <= rank.Keys
    && forall k, n :: k in m && n in Refs(m[k].songs) && n in m ==> rank[n] < rank[k]
  }

  /** On an acyclic name graph, fuel above the rank of every reachable name is
      enough: flattening then never reports `DepthExceeded`. */
  lemma {:induction false} RankedNeverExhausts(t: SongTree, m: map<string, Playset>, rank: map<string, nat>, fuel: nat)
    requires WellRanked(m, rank)
    requires forall n :: n in Refs(t) && n in m ==> rank[n] < fuel
    ensures FlattenTree(t, m, fuel) != Err(DepthExceeded)
    decreases fuel, t
  {
    match t
    case Set(Terminal(_)) =>
    case Set(NonTerminal(name)) =>
      if name in m {
        var inner := m[name].songs;
        forall n | n in Refs(inner) && n in m
          ensures rank[n] < fuel - 1
        {
          assert rank[n] < rank[name];
        }
        RankedNeverExhausts(inner, m, rank, fuel - 1);
      }
    case Operation(op, lhs, rhs) =>
      RankedNeverExhausts(lhs, m, rank, fuel);
      RankedNeverExhausts(rhs, m, rank, fuel);
  }

}
