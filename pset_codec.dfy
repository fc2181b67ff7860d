/** The playset encoding (`to_pset_string` / `from_pset_string` in
    src/playset/playset.rs): a postfix serializer and a single-pass stack
    parser, and the proof that the parser inverts the serializer. */
module PsetCodec {

  import opened Wrappers
  import opened PsetFormat
  import opened SongTrees

  // ---------------------------------------------------------------------------
  // Serializer

  /** Each song's name followed by a separator, in the given order. */
  function SongNames(order: seq<Song>): string
  {
    if order == [] then []
    else SongNames(order[..|order| - 1]) + order[|order| - 1].name + [SEPERATOR]
  }

  /** The encoding of a literal set whose songs are visited in `order`. */
  function TerminalString(order: seq<Song>): string
  {
    [SET_START] + SongNames(order) + [SET_END]
  }

  /** `order` visits every song of `songs` exactly once, as iterating the
      source's `HashSet` does, in an order the source leaves unspecified. */
  ghost predicate IsEnumeration(order: seq<Song>, songs: set<Song>)
  {
    && (forall i, j :: 0 <= i < j < |order| ==> order[i] != order[j])
    && (forall x :: x in order <==> x in songs)
  }

  /** `s` is an encoding of the leaf, for some iteration order of a literal set. */
  ghost predicate IsSetPset(leaf: SongSet, s: string)
  {
    match leaf
    case Terminal(songs) => exists order :: IsEnumeration(order, songs) && s == TerminalString(order)
    case NonTerminal(name) => s == name + [SEPERATOR]
  }

  /** `s` is a postfix encoding of the tree: left operand, right operand, then
      the operator character. */
  ghost predicate IsPset(t: SongTree, s: string)
    decreases t
  {
    match t
    case Set(leaf) => IsSetPset(leaf, s)
    case Operation(op, lhs, rhs) =>
      exists sl, sr :: s == sl + sr + [OpChar(op)] && IsPset(lhs, sl) && IsPset(rhs, sr)
  }

  /** `SongSet::to_pset_string`: a literal set is written song by song, in
      whatever order the set is iterated. */
  method SetToPsetString(leaf: SongSet) returns (out: string)
    ensures IsSetPset(leaf, out)
  {
    match leaf
    case Terminal(songs) =>
      out := [SET_START];
      var remaining := songs;
      ghost var order: seq<Song> := [];
      while remaining != {}
        invariant remaining <= songs
        invariant forall i, j :: 0 <= i < j < |order| ==> order[i] != order[j]
        invariant forall x :: x in order <==> x in songs && x !in remaining
        invariant out == [SET_START] + SongNames(order)
        decreases remaining
      {
        var song :| song in remaining;
        out := out + song.name + [SEPERATOR];
        ghost var visited := order;
        order := order + [song];
        assert order[..|order| - 1] == visited;
        remaining := remaining - {song};
      }
      out := out + [SET_END];
      assert IsEnumeration(order, songs) && out == TerminalString(order);
    case NonTerminal(name) =>
      out := name + [SEPERATOR];
  }

  /** `SongTree::to_pset_string`. */
  method TreeToPsetString(t: SongTree) returns (out: string)
    ensures IsPset(t, out)
    decreases t
  {
    match t
    case Set(leaf) =>
      out := SetToPsetString(leaf);
    case Operation(op, lhs, rhs) =>
      var l := TreeToPsetString(lhs);
      var r := TreeToPsetString(rhs);
      out := l + r + [OpChar(op)];
      assert out == l + r + [OpChar(op)] && IsPset(lhs, l) && IsPset(rhs, r);
  }

  // ---------------------------------------------------------------------------
  // Parser

  /** The panics of `from_pset_string`, as failures: an `unwrap()` of a pop on
      a stack with too few operands (at an operator, or at the end of the
      input), and an `unwrap()` of a song that cannot be resolved. */
  datatype ParseError = MissingOperand | EmptyStack | UnresolvedSong(name: string)

  /** Looking up a song by name (`Song::from_path`, which reads the file's tags). */
  type Resolver = string -> Option<Song>

  /** The parser's mutable locals; the top of the stack is its last element. */
  datatype ParserState = ParserState(
    parseStack: seq<SongTree>,
    nameBuffer: string,
    setBuffer: set<Song>,
    collectingSet: bool)

  const Initial: ParserState := ParserState([], [], {}, false)

  /** One iteration of the parser's loop: the match arms in source order. */
  function Step(st: ParserState, c: char, resolve: Resolver): (r: Result<ParserState, ParseError>)
    ensures r.Err? <==>
      || (c == SEPERATOR && st.collectingSet && resolve(st.nameBuffer).None?)
      || (IsOperatorChar(c) && |st.parseStack| < 2)
    ensures r.Err? ==> r.error == if IsOperatorChar(c) then MissingOperand else UnresolvedSong(st.nameBuffer)
    ensures r.Ok? ==> |r.value.parseStack| <= |st.parseStack| + 1
  {
    if c == SEPERATOR && st.collectingSet then
      match resolve(st.nameBuffer)
      case None => Err(UnresolvedSong(st.nameBuffer))
      case Some(song) => Ok(st.(setBuffer := st.setBuffer + {song}, nameBuffer := []))
    else if c == SEPERATOR then
      Ok(st.(parseStack := st.parseStack + [Set(NonTerminal(st.nameBuffer))], nameBuffer := []))
    else if c == SET_START then
      Ok(st.(collectingSet := true))
    else if c == SET_END then
      Ok(st.(collectingSet := false, parseStack := st.parseStack + [Set(Terminal(st.setBuffer))], setBuffer := {}))
    else if IsOperatorChar(c) then
      var n := |st.parseStack|;
      if n < 2 then Err(MissingOperand)
      else
        var right, left := st.parseStack[n - 1], st.parseStack[n - 2];
        Ok(st.(parseStack := st.parseStack[..n - 2] + [Operation(OpOfChar(c), left, right)]))
    else
      Ok(st.(nameBuffer := st.nameBuffer + [c]))
  }

  /** The loop over all characters, stopping at the first failure. */
  function Run(st: ParserState, s: string, resolve: Resolver): (r: Result<ParserState, ParseError>)
    ensures r.Err? && r.error.UnresolvedSong? ==> resolve(r.error.name).None?
    ensures r.Err? && r.error == MissingOperand ==> exists i :: 0 <= i < |s| && IsOperatorChar(s[i])
    ensures r.Ok? ==> |r.value.parseStack| <= |st.parseStack| + |s|
    decreases |s|
  {
    if s == [] then Ok(st)
    else
      match Step(st, s[0], resolve)
      case Err(e) => Err(e)
      case Ok(next) => Run(next, s[1..], resolve)
  }

  /** `SongTree::from_pset_string`: the top of the stack after the loop. Deeper
      operands, a leftover name and an unterminated literal set are ignored. */
  function Parse(s: string, resolve: Resolver): (r: Result<SongTree, ParseError>)
    ensures r.Err? && r.error.UnresolvedSong? ==> resolve(r.error.name).None?
    ensures r.Err? && r.error == MissingOperand ==> exists i :: 0 <= i < |s| && IsOperatorChar(s[i])
    ensures s == [] ==> r == Err(EmptyStack)
  {
    match Run(Initial, s, resolve)
    case Err(e) => Err(e)
    case Ok(st) =>
      if |st.parseStack| == 0 then Err(EmptyStack)
      else Ok(st.parseStack[|st.parseStack| - 1])
  }

  /** `SongTree::from_pset_string`, with the loop over the characters and the
      four mutable locals of the source. */
  method FromPsetString(s: string, resolve: Resolver) returns (r: Result<SongTree, ParseError>)
    ensures r == Parse(s, resolve)
  {
    var parseStack: seq<SongTree> := [];
    var setBuffer: set<Song> := {};
    var nameBuffer: string := [];
    var collectingSet := false;
    for i := 0 to |s|
      invariant Run(ParserState(parseStack, nameBuffer, setBuffer, collectingSet), s[i..], resolve)
             == Run(Initial, s, resolve)
    {
      ghost var before := ParserState(parseStack, nameBuffer, setBuffer, collectingSet);
      assert s[i..][0] == s[i] && s[i..][1..] == s[i + 1..];
      var c := s[i];
      if c == SEPERATOR && collectingSet {
        var song := resolve(nameBuffer);
        if song.None? {
          return Err(UnresolvedSong(nameBuffer));
        }
        setBuffer := setBuffer + {song.value};
        nameBuffer := [];
      } else if c == SEPERATOR {
        parseStack := parseStack + [Set(NonTerminal(nameBuffer))];
        nameBuffer := [];
      } else if c == SET_START {
        collectingSet := true;
      } else if c == SET_END {
        collectingSet := false;
        parseStack := parseStack + [Set(Terminal(setBuffer))];
        setBuffer := {};
      } else if IsOperatorChar(c) {
        if |parseStack| == 0 {
          return Err(MissingOperand);
        }
        var right := parseStack[|parseStack| - 1];
        parseStack := parseStack[..|parseStack| - 1];
        if |parseStack| == 0 {
          return Err(MissingOperand);
        }
        var left := parseStack[|parseStack| - 1];
        parseStack := parseStack[..|parseStack| - 1];
        assert parseStack == before.parseStack[..|before.parseStack| - 2];
        parseStack := parseStack + [Operation(OpOfChar(c), left, right)];
      } else {
        nameBuffer := nameBuffer + [c];
      }
      assert Step(before, c, resolve) == Ok(ParserState(parseStack, nameBuffer, setBuffer, collectingSet));
    }
    if |parseStack| == 0 {
      return Err(EmptyStack);
    }
    r := Ok(parseStack[|parseStack| - 1]);
  }

  // ---------------------------------------------------------------------------
  // Token steps of the parser

  /** A separator outside a literal set pushes a reference to the buffered name
      and clears the name buffer. */
  lemma RunSeparatorOutsideSet(st: ParserState, rest: string, resolve: Resolver)
    requires !st.collectingSet
    ensures Run(st, [SEPERATOR] + rest, resolve)
         == Run(st.(parseStack := st.parseStack + [Set(NonTerminal(st.nameBuffer))], nameBuffer := []), rest, resolve)
  {
    assert ([SEPERATOR] + rest)[1..] == rest;
  }

  /** A separator inside a literal set adds the resolved song to the set buffer
      and clears the name buffer, or fails when the name does not resolve. */
  lemma RunSeparatorInsideSet(st: ParserState, rest: string, resolve: Resolver)
    requires st.collectingSet
    ensures resolve(st.nameBuffer).None? ==>
      Run(st, [SEPERATOR] + rest, resolve) == Err(UnresolvedSong(st.nameBuffer))
    ensures resolve(st.nameBuffer).Some? ==>
      Run(st, [SEPERATOR] + rest, resolve)
      == Run(st.(setBuffer := st.setBuffer + {resolve(st.nameBuffer).value}, nameBuffer := []), rest, resolve)
  {
    assert ([SEPERATOR] + rest)[1..] == rest;
  }

  /** The start of a literal set turns on collecting, even inside a set. */
  lemma RunSetStart(st: ParserState, rest: string, resolve: Resolver)
    ensures Run(st, [SET_START] + rest, resolve) == Run(st.(collectingSet := true), rest, resolve)
  {
    assert ([SET_START] + rest)[1..] == rest;
  }

  /** The end of a literal set pushes the collected songs and clears the set
      buffer (whether or not a set was open). */
  lemma RunSetEnd(st: ParserState, rest: string, resolve: Resolver)
    ensures Run(st, [SET_END] + rest, resolve)
         == Run(st.(collectingSet := false, parseStack := st.parseStack + [Set(Terminal(st.setBuffer))], setBuffer := {}), rest, resolve)
  {
    assert ([SET_END] + rest)[1..] == rest;
  }

  /** An operator pops the right operand, then the left one, and pushes the
      operation; it fails when fewer than two operands are on the stack. */
  lemma RunOperator(st: ParserState, c: char, rest: string, resolve: Resolver)
    requires IsOperatorChar(c)
    ensures |st.parseStack| < 2 ==> Run(st, [c] + rest, resolve) == Err(MissingOperand)
    ensures forall stack: seq<SongTree>, left: SongTree, right: SongTree ::
      st.parseStack == stack + [left, right] ==>
      Run(st, [c] + rest, resolve)
      == Run(st.(parseStack := stack + [Operation(OpOfChar(c), left, right)]), rest, resolve)
  {
    assert ([c] + rest)[1..] == rest;
    forall stack: seq<SongTree>, left: SongTree, right: SongTree | st.parseStack == stack + [left, right]
      ensures st.parseStack[..|st.parseStack| - 2] == stack
    {
      assert st.parseStack[..|st.parseStack| - 2] == stack;
    }
  }

  /** A name the encoding can carry: none of its characters is a control character. */
  predicate NameChars(w: string)
  {
    forall i :: 0 <= i < |w| ==> !IsControlChar(w[i])
  }

  /** Such a name is appended to the name buffer, inside a literal set or
      outside one. */
  lemma {:induction false} RunName(st: ParserState, w: string, rest: string, resolve: Resolver)
    requires NameChars(w)
    ensures Run(st, w + rest, resolve) == Run(st.(nameBuffer := st.nameBuffer + w), rest, resolve)
    decreases |w|
  {
    if w == [] {
      assert w + rest == rest;
      assert st.nameBuffer + w == st.nameBuffer;
    } else {
      assert (w + rest)[0] == w[0];
      assert (w + rest)[1..] == w[1..] + rest;
      var next := st.(nameBuffer := st.nameBuffer + [w[0]]);
      assert Step(st, w[0], resolve) == Ok(next);
      RunName(next, w[1..], rest, resolve);
      assert next.nameBuffer + w[1..] == st.nameBuffer + w;
    }
  }

  /** Running over a concatenation runs over the first part, then the second. */
  lemma {:induction false} RunAppend(st: ParserState, a: string, b: string, resolve: Resolver)
    ensures Run(st, a + b, resolve)
         == match Run(st, a, resolve) case Err(e) => Err(e) case Ok(mid) => Run(mid, b, resolve)
    decreases |a|
  {
    if a == [] {
      assert a + b == b;
    } else {
      assert (a + b)[0] == a[0];
      assert (a + b)[1..] == a[1..] + b;
      match Step(st, a[0], resolve)
      case Err(e) =>
      case Ok(next) => RunAppend(next, a[1..], b, resolve);
    }
  }

  // ---------------------------------------------------------------------------
  // Round trip

  /** A tree the encoding can carry: no name contains a control character, and
      the resolver gives back every song of a literal set from its name. */
  ghost predicate Encodable(t: SongTree, resolve: Resolver)
  {
    match t
    case Set(Terminal(songs)) =>
      forall song :: song in songs ==> NameChars(song.name) && resolve(song.name) == Some(song)
    case Set(NonTerminal(name)) => NameChars(name)
    case Operation(_, lhs, rhs) => Encodable(lhs, resolve) && Encodable(rhs, resolve)
  }

  /** The songs an enumeration visits. */
  function Elements(order: seq<Song>): set<Song>
  {
    set x | x in order
  }

  /** Inside a literal set, the names of resolvable songs add exactly those
      songs to the set buffer. */
  lemma {:induction false} RunSongNames(st: ParserState, order: seq<Song>, rest: string, resolve: Resolver)
    requires st.collectingSet && st.nameBuffer == []
    requires forall i :: 0 <= i < |order| ==> NameChars(order[i].name) && resolve(order[i].name) == Some(order[i])
    ensures Run(st, SongNames(order) + rest, resolve)
         == Run(st.(setBuffer := st.setBuffer + Elements(order)), rest, resolve)
    decreases |order|
  {
    if order == [] {
      assert SongNames(order) + rest == rest;
      assert st.setBuffer + Elements(order) == st.setBuffer;
    } else {
      var init, last := order[..|order| - 1], order[|order| - 1];
      var mid := st.(setBuffer := st.setBuffer + Elements(init));
      var named := mid.(nameBuffer := last.name);
      var done := mid.(setBuffer := mid.setBuffer + {last});
      calc {
        Run(st, SongNames(order) + rest, resolve);
        { assert SongNames(order) + rest == SongNames(init) + (last.name + ([SEPERATOR] + rest)); }
        Run(st, SongNames(init) + (last.name + ([SEPERATOR] + rest)), resolve);
        { RunSongNames(st, init, last.name + ([SEPERATOR] + rest), resolve); }
        Run(mid, last.name + ([SEPERATOR] + rest), resolve);
        { RunName(mid, last.name, [SEPERATOR] + rest, resolve);
          assert mid.nameBuffer + last.name == last.name; }
        Run(named, [SEPERATOR] + rest, resolve);
        { RunSeparatorInsideSet(named, rest, resolve); }
        Run(done, rest, resolve);
        { assert order == init + [last];
          assert Elements(order) == Elements(init) + {last};
          assert done.setBuffer == st.setBuffer + Elements(order);
          assert done == st.(setBuffer := st.setBuffer + Elements(order)); }
        Run(st.(setBuffer := st.setBuffer + Elements(order)), rest, resolve);
      }
    }
  }

  /** A reference is pushed when its name and separator are scanned. */
  lemma {:induction false} RunReferenceEncoding(name: string, st: ParserState, resolve: Resolver)
    requires NameChars(name)
    requires !st.collectingSet && st.nameBuffer == []
    ensures Run(st, name + [SEPERATOR], resolve) == Ok(st.(parseStack := st.parseStack + [Set(NonTerminal(name))]))
  {
    RunName(st, name, [SEPERATOR], resolve);
    assert st.nameBuffer + name == name;
    RunSeparatorOutsideSet(st.(nameBuffer := name), [], resolve);
    assert [SEPERATOR] + [] == [SEPERATOR];
  }

  /** A literal set is pushed when any of its encodings is scanned. */
  lemma {:induction false} RunLiteralEncoding(songs: set<Song>, s: string, st: ParserState, resolve: Resolver)
    requires Encodable(Set(Terminal(songs)), resolve) && IsSetPset(Terminal(songs), s)
    requires !st.collectingSet && st.nameBuffer == [] && st.setBuffer == {}
    ensures Run(st, s, resolve) == Ok(st.(parseStack := st.parseStack + [Set(Terminal(songs))]))
  {
    var order: seq<Song> :| IsEnumeration(order, songs) && s == TerminalString(order);
    assert s == [SET_START] + (SongNames(order) + [SET_END]);
    assert s[0] == SET_START && s[1..] == SongNames(order) + [SET_END];
    var open := st.(collectingSet := true);
    assert Step(st, SET_START, resolve) == Ok(open);
    forall i | 0 <= i < |order|
      ensures NameChars(order[i].name) && resolve(order[i].name) == Some(order[i])
    {
      assert order[i] in songs;
    }
    RunSongNames(open, order, [SET_END], resolve);
    assert open.setBuffer + Elements(order) == songs;
    RunSetEnd(open.(setBuffer := songs), [], resolve);
    assert [SET_END] + [] == [SET_END];
  }

  /** From a state outside any literal set with empty buffers, running over an
      encoding of `t` pushes exactly `t`. */
  lemma {:induction false} RunEncoding(t: SongTree, s: string, st: ParserState, resolve: Resolver)
    requires Encodable(t, resolve) && IsPset(t, s)
    requires !st.collectingSet && st.nameBuffer == [] && st.setBuffer == {}
    ensures Run(st, s, resolve) == Ok(st.(parseStack := st.parseStack + [t]))
    decreases t
  {
    match t
    case Set(NonTerminal(name)) =>
      RunReferenceEncoding(name, st, resolve);
    case Set(Terminal(songs)) =>
      RunLiteralEncoding(songs, s, st, resolve);
    case Operation(op, lhs, rhs) =>
      var sl, sr :| s == sl + sr + [OpChar(op)] && IsPset(lhs, sl) && IsPset(rhs, sr);
      RunAppend(st, sl, sr + [OpChar(op)], resolve);
      assert s == sl + (sr + [OpChar(op)]);
      RunEncoding(lhs, sl, st, resolve);
      var withLeft := st.(parseStack := st.parseStack + [lhs]);
      RunAppend(withLeft, sr, [OpChar(op)], resolve);
      RunEncoding(rhs, sr, withLeft, resolve);
      var both := withLeft.(parseStack := withLeft.parseStack + [rhs]);
      assert both.parseStack == st.parseStack + [lhs, rhs];
      RunOperator(both, OpChar(op), [], resolve);
      assert [OpChar(op)] + [] == [OpChar(op)];
      OpCharRoundTrip(op);
  }

  /** Parsing any encoding of an encodable tree gives back that tree, whatever
      order the literal sets were written in. */
  lemma RoundTrip(t: SongTree, s: string, resolve: Resolver)
    requires Encodable(t, resolve) && IsPset(t, s)
    ensures Parse(s, resolve) == Ok(t)
  {
    RunEncoding(t, s, Initial, resolve);
  }

  /** Hence the parsed tree flattens like the original in every library. */
  lemma RoundTripFlatten(t: SongTree, s: string, resolve: Resolver, m: map<string, Playset>, fuel: nat)
    requires Encodable(t, resolve) && IsPset(t, s)
    ensures Parse(s, resolve).Ok?
    ensures FlattenTree(Parse(s, resolve).value, m, fuel) == FlattenTree(t, m, fuel)
  {
    RoundTrip(t, s, resolve);
  }

  /** Without the name condition the round trip fails: a reference whose name
      holds a separator is read back as two references, of which the parser
      returns the second. */
  lemma {:induction false} SeparatorInNameBreaksRoundTrip(x: string, y: string, resolve: Resolver)
    requires NameChars(x) && NameChars(y)
    ensures IsPset(Set(NonTerminal(x + [SEPERATOR] + y)), x + [SEPERATOR] + y + [SEPERATOR])
    ensures Parse(x + [SEPERATOR] + y + [SEPERATOR], resolve) == Ok(Set(NonTerminal(y)))
  {
    var a, b := Set(NonTerminal(x)), Set(NonTerminal(y));
    assert IsPset(a, x + [SEPERATOR]) && IsPset(b, y + [SEPERATOR]);
    ParseReturnsTop(a, x + [SEPERATOR], b, y + [SEPERATOR], [], [], resolve);
    assert x + [SEPERATOR] + y + [SEPERATOR] == (x + [SEPERATOR]) + (y + [SEPERATOR]);
  }

  // ---------------------------------------------------------------------------
  // End of input

  /** The parser fails on an empty input, and on input that only fills the name
      buffer, because no operand was pushed. */
  lemma {:induction false} ParseNoOperand(w: string, resolve: Resolver)
    requires NameChars(w)
    ensures Parse(w, resolve) == Err(EmptyStack)
  {
    RunName(Initial, w, [], resolve);
    assert w + [] == w;
  }

  /** An operator with fewer than two operands on the stack fails. */
  lemma {:induction false} ParseOneOperand(name: string, c: char, resolve: Resolver)
    requires NameChars(name) && IsOperatorChar(c)
    ensures Parse(name + [SEPERATOR, c], resolve) == Err(MissingOperand)
  {
    var st := Initial.(nameBuffer := name);
    RunName(Initial, name, [SEPERATOR, c], resolve);
    assert [SEPERATOR, c] == [SEPERATOR] + [c];
    RunSeparatorOutsideSet(st, [c], resolve);
    var pushed := st.(parseStack := [Set(NonTerminal(name))], nameBuffer := []);
    RunOperator(pushed, c, [], resolve);
    assert [c] + [] == [c];
  }

  /** At the end of input the top of the stack is returned: a complete encoding
      followed by a second one parses as the second, and a trailing name or an
      unterminated literal set is ignored, together with any songs that set
      has already collected. */
  lemma {:induction false} ParseReturnsTop(t: SongTree, s: string, u: SongTree, v: string, w: string, order: seq<Song>, resolve: Resolver)
    requires Encodable(t, resolve) && IsPset(t, s)
    requires Encodable(u, resolve) && IsPset(u, v)
    requires NameChars(w)
    requires forall i :: 0 <= i < |order| ==> NameChars(order[i].name) && resolve(order[i].name) == Some(order[i])
    ensures Parse(s + v, resolve) == Ok(u)
    ensures Parse(s + w, resolve) == Ok(t)
    ensures Parse(s + [SET_START] + w, resolve) == Ok(t)
    ensures Parse(s + ([SET_START] + (SongNames(order) + w)), resolve) == Ok(t)
  {
    ParseSecondEncoding(t, s, u, v, resolve);
    ParseTrailingName(t, s, w, resolve);
    ParseOpenSet(t, s, [], w, resolve);
    assert SongNames([]) + w == w;
    assert s + [SET_START] + w == s + ([SET_START] + (SongNames([]) + w));
    ParseOpenSet(t, s, order, w, resolve);
  }

  /** A complete encoding followed by a second one parses as the second. */
  lemma {:induction false} ParseSecondEncoding(t: SongTree, s: string, u: SongTree, v: string, resolve: Resolver)
    requires Encodable(t, resolve) && IsPset(t, s)
    requires Encodable(u, resolve) && IsPset(u, v)
    ensures Parse(s + v, resolve) == Ok(u)
  {
    var st := Initial.(parseStack := [t]);
    RunEncoding(u, v, st, resolve);
    assert st.parseStack + [u] == [t, u];
    ParseAfterEncoding(t, s, v, st.(parseStack := [t, u]), resolve);
  }

  /** A name left in the buffer at the end of input is ignored. */
  lemma {:induction false} ParseTrailingName(t: SongTree, s: string, w: string, resolve: Resolver)
    requires Encodable(t, resolve) && IsPset(t, s)
    requires NameChars(w)
    ensures Parse(s + w, resolve) == Ok(t)
  {
    var st := Initial.(parseStack := [t]);
    RunName(st, w, [], resolve);
    assert w + [] == w && st.nameBuffer + w == w;
    ParseAfterEncoding(t, s, w, st.(nameBuffer := w), resolve);
  }

  /** A literal set left open at the end of input is ignored, together with
      the songs it has collected. */
  lemma {:induction false} ParseOpenSet(t: SongTree, s: string, order: seq<Song>, w: string, resolve: Resolver)
    requires Encodable(t, resolve) && IsPset(t, s)
    requires NameChars(w)
    requires forall i :: 0 <= i < |order| ==> NameChars(order[i].name) && resolve(order[i].name) == Some(order[i])
    ensures Parse(s + ([SET_START] + (SongNames(order) + w)), resolve) == Ok(t)
  {
    var st := Initial.(parseStack := [t]);
    RunOpenSet(st, order, w, resolve);
    assert st.setBuffer + Elements(order) == Elements(order);
    ParseAfterEncoding(t, s, [SET_START] + (SongNames(order) + w),
      st.(collectingSet := true, setBuffer := Elements(order), nameBuffer := w), resolve);
  }

  /** Text that follows a complete encoding is scanned from the state holding
      that one tree, and the parser returns the top of the stack it leaves. */
  lemma {:induction false} ParseAfterEncoding(t: SongTree, s: string, rest: string, after: ParserState, resolve: Resolver)
    requires Encodable(t, resolve) && IsPset(t, s)
    requires Run(Initial.(parseStack := [t]), rest, resolve) == Ok(after)
    requires |after.parseStack| > 0
    ensures Parse(s + rest, resolve) == Ok(after.parseStack[|after.parseStack| - 1])
  {
    RunEncoding(t, s, Initial, resolve);
    assert Initial.parseStack + [t] == [t];
    RunAppend(Initial, s, rest, resolve);
  }

  /** An open literal set collects its resolvable songs and a trailing name
      without touching the operand stack. */
  lemma {:induction false} RunOpenSet(st: ParserState, order: seq<Song>, w: string, resolve: Resolver)
    requires st.nameBuffer == []
    requires NameChars(w)
    requires forall i :: 0 <= i < |order| ==> NameChars(order[i].name) && resolve(order[i].name) == Some(order[i])
    ensures Run(st, [SET_START] + (SongNames(order) + w), resolve)
         == Ok(st.(collectingSet := true, setBuffer := st.setBuffer + Elements(order), nameBuffer := w))
  {
    var open := st.(collectingSet := true);
    RunSetStart(st, SongNames(order) + w, resolve);
    RunSongNames(open, order, w, resolve);
    var filled := open.(setBuffer := open.setBuffer + Elements(order));
    RunName(filled, w, [], resolve);
    assert w + [] == w;
    assert filled.nameBuffer + w == w;
  }

  /** A song name that cannot be resolved makes parsing fail. */
  lemma {:induction false} ParseUnresolvedSong(name: string, resolve: Resolver)
    requires NameChars(name) && resolve(name).None?
    ensures Parse([SET_START] + name + [SEPERATOR, SET_END], resolve) == Err(UnresolvedSong(name))
  {
    var open := Initial.(collectingSet := true);
    var s := [SET_START] + name + [SEPERATOR, SET_END];
    assert s[0] == SET_START && s[1..] == name + [SEPERATOR, SET_END];
    assert Step(Initial, SET_START, resolve) == Ok(open);
    assert Run(Initial, s, resolve) == Run(open, name + [SEPERATOR, SET_END], resolve);
    RunName(open, name, [SEPERATOR, SET_END], resolve);
    assert open.nameBuffer + name == name;
    assert [SEPERATOR, SET_END] == [SEPERATOR] + [SET_END];
    RunSeparatorInsideSet(open.(nameBuffer := name), [SET_END], resolve);
  }

}
