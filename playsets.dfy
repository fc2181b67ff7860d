/** Playsets and the library that holds them (`Playset` and `Library` in
    src/playset/playset.rs). */
module Playsets {

  import opened Wrappers
  import opened SongTrees
  import opened PsetFormat
  import opened PsetCodec

  /** The name under which the library keeps its universal set. */
  const UniversalName: string := "U"

  /** `Playset::empty_terminal`: a playset holding an empty literal set, which
      flattens to no songs in any library. */
  function EmptyTerminal(name: string): (p: Playset)
    ensures p.name == name
    ensures forall m: map<string, Playset>, fuel: nat :: FlattenTree(p.songs, m, fuel) == Ok({})
  {
    Playset(name, Set(Terminal({})))
  }

  /** `Playset::from_pset_string`: parse the stored text under the given name.
      Reading back any encoding of an encodable tree gives back that tree. */
  method PlaysetFromPsetString(s: string, name: string, resolve: Resolver) returns (r: Result<Playset, ParseError>)
    ensures r.Ok? <==> Parse(s, resolve).Ok?
    ensures r.Ok? ==> r.value == Playset(name, Parse(s, resolve).value)
    ensures r.Err? ==> r.error == Parse(s, resolve).error
    ensures forall t :: Encodable(t, resolve) && IsPset(t, s) ==> r == Ok(Playset(name, t))
  {
    var tree := FromPsetString(s, resolve);
    forall t | Encodable(t, resolve) && IsPset(t, s)
      ensures tree == Ok(t)
    {
      RoundTrip(t, s, resolve);
    }
    match tree
    case Err(e) => r := Err(e);
    case Ok(t) => r := Ok(Playset(name, t));
  }

  /** After `push_empty_set(name)` the name refers to an empty set, whatever it
      referred to before, and every other name is bound as it was. */
  lemma PushedNameFlattensEmpty(m: map<string, Playset>, name: string, other: string, fuel: nat)
    ensures FlattenTree(Set(NonTerminal(name)), m[name := EmptyTerminal(name)], fuel + 1) == Ok({})
    ensures other != name ==>
      (other in m[name := EmptyTerminal(name)] <==> other in m)
      && (other in m ==> m[name := EmptyTerminal(name)][other] == m[other])
  {
    var pushed := m[name := EmptyTerminal(name)];
    assert FlattenTree(pushed[name].songs, pushed, fuel) == Ok({});
  }

  /** A worked library: "X" is the literal set {a, b}, "Y" is X joined with the
      literal {c}, and "Z" takes X away from the universal set by name. Y
      flattens to {a, b, c}; Z fails, because "U" is not a key of the map. */
  lemma LibraryExample(a: Song, b: Song, c: Song, fuel: nat)
    requires fuel > 0
    ensures var m := map[
        "X" := Playset("X", Set(Terminal({a, b}))),
        "Y" := Playset("Y", Operation(Union, Set(NonTerminal("X")), Set(Terminal({c})))),
        "Z" := Playset("Z", Operation(Difference, Set(NonTerminal(UniversalName)), Set(NonTerminal("X"))))];
      && FlattenTree(m["X"].songs, m, fuel) == Ok({a, b})
      && FlattenTree(m["Y"].songs, m, fuel) == Ok({a, b, c})
      && FlattenTree(m["Z"].songs, m, fuel) == Err(MissingSet(UniversalName))
  {
    var m := map[
        "X" := Playset("X", Set(Terminal({a, b}))),
        "Y" := Playset("Y", Operation(Union, Set(NonTerminal("X")), Set(Terminal({c})))),
        "Z" := Playset("Z", Operation(Difference, Set(NonTerminal(UniversalName)), Set(NonTerminal("X"))))];
    assert "X" != "Y" && "X" != "Z" && "Y" != "Z";
    assert UniversalName !in m;
    assert "X" in m && m["X"].songs == Set(Terminal({a, b}));
    assert FlattenTree(m["X"].songs, m, fuel - 1) == Ok({a, b});
    assert FlattenSet(NonTerminal("X"), m, fuel) == FlattenTree(m["X"].songs, m, fuel - 1);
    assert FlattenTree(Set(NonTerminal("X")), m, fuel) == Ok({a, b});
    assert FlattenTree(Set(NonTerminal(UniversalName)), m, fuel) == Err(MissingSet(UniversalName));
    assert FlattenTree(Set(Terminal({c})), m, fuel) == Ok({c});
    assert Apply(Union, {a, b}, {c}) == {a, b, c};
    assert m["Y"].songs == Operation(Union, Set(NonTerminal("X")), Set(Terminal({c})));
  }

  /** The library: the universal set, kept apart, and the named subsets. */
  class Library {
    var universalSet: Playset
    var sets: map<string, Playset>

    /** The universal set is a literal set named "U", and every subset is
        stored under its own name. */
    ghost predicate Valid()
      reads this
    {
      && universalSet.name == UniversalName && universalSet.songs.Set? && universalSet.songs.leaf.Terminal?
      && forall k :: k in sets ==> sets[k].name == k
    }

    /** The library `Library::initialize` assembles from the songs it read and
        the subsets it parsed, each inserted under its own file name. */
    constructor (universe: set<Song>, sets: map<string, Playset>)
      requires forall k :: k in sets ==> sets[k].name == k
      ensures Valid()
      ensures universalSet == Playset(UniversalName, Set(Terminal(universe)))
      ensures this.sets == sets
    {
      universalSet := Playset(UniversalName, Set(Terminal(universe)));
      this.sets := sets;
    }

    /** `Library::push_empty_set`: binds `name` to an empty literal set,
        overwriting any playset of that name. */
    method PushEmptySet(name: string)
      requires Valid()
      modifies this
      ensures Valid()
      ensures universalSet == old(universalSet)
      ensures sets == old(sets)[name := EmptyTerminal(name)]
      ensures forall fuel: nat :: fuel > 0 ==> FlattenTree(Set(NonTerminal(name)), sets, fuel) == Ok({})
      ensures forall k :: k != name ==> (k in sets <==> k in old(sets)) && (k in sets ==> sets[k] == old(sets)[k])
    {
      sets := sets[name := EmptyTerminal(name)];
      forall fuel: nat | fuel > 0
        ensures FlattenTree(Set(NonTerminal(name)), sets, fuel) == Ok({})
      {
        PushedNameFlattensEmpty(old(sets), name, name, fuel - 1);
      }
    }
  }

}
