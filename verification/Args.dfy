/** The argument normaliser of the command line tool: flags may follow positionals. Flags are
    known by name, each with whether it is boolean. */
module Args {
  import opened Bags

  type FlagSet = map<string, bool>

  function TrimDashes(s: string): string {
    if s != "" && s[0] == '-' then TrimDashes(s[1..]) else s
  }

  /** The argument is read as a flag; the terminator is handled before. */
  predicate FlagLike(a: string) {
    a != "" && a[0] == '-' && a != "-"
  }

  /** A known flag that is not boolean and was not written with its value. */
  predicate TakesValue(fs: FlagSet, a: string) {
    var name := TrimDashes(a);
    '=' !in name && name in fs && !fs[name]
  }

  /** Flags with their values, and positionals, each in their order. */
  function Split(fs: FlagSet, args: seq<string>): (seq<string>, seq<string>)
    decreases |args|
  {
    if args == [] then ([], [])
    else if args[0] == "--" then ([], args[1..])
    else if !FlagLike(args[0]) then
      var (flags, pos) := Split(fs, args[1..]);
      (flags, [args[0]] + pos)
    else if TakesValue(fs, args[0]) && |args| > 1 then
      var (flags, pos) := Split(fs, args[2..]);
      ([args[0], args[1]] + flags, pos)
    else
      var (flags, pos) := Split(fs, args[1..]);
      ([args[0]] + flags, pos)
  }

  function Normalized(fs: FlagSet, args: seq<string>): seq<string> {
    Split(fs, args).0 + ["--"] + Split(fs, args).1
  }

  /** The last argument is a value flag that misses its value. */
  predicate Dangling(fs: FlagSet, args: seq<string>)
    decreases |args|
  {
    if args == [] || args[0] == "--" then false
    else if !FlagLike(args[0]) then Dangling(fs, args[1..])
    else if TakesValue(fs, args[0]) then |args| == 1 || Dangling(fs, args[2..])
    else Dangling(fs, args[1..])
  }

  /** One turn of the loop, seen from the remaining arguments. */
  lemma SplitStep(fs: FlagSet, args: seq<string>, i: nat)
    requires i < |args| && args[i] != "--"
    ensures var (a, rest) := (args[i], Split(fs, args[i..]));
      if !FlagLike(a) then
        rest == (Split(fs, args[i + 1..]).0, [a] + Split(fs, args[i + 1..]).1)
      else if TakesValue(fs, a) && i + 1 < |args| then
        rest == ([a] + ([args[i + 1]] + Split(fs, args[i + 2..]).0), Split(fs, args[i + 2..]).1)
      else
        rest == ([a] + Split(fs, args[i + 1..]).0, Split(fs, args[i + 1..]).1)
  {
    assert args[i..][1..] == args[i + 1..];
    if i + 1 < |args| {
      assert args[i..][2..] == args[i + 2..];
      var flags := Split(fs, args[i + 2..]).0;
      assert [args[i], args[i + 1]] + flags == [args[i]] + ([args[i + 1]] + flags);
    }
  }

  lemma SplitEnds(fs: FlagSet, args: seq<string>, i: nat)
    requires i <= |args| && (i == |args| || args[i] == "--")
    ensures Split(fs, args[i..]) == ([], if i == |args| then [] else args[i + 1..])
  {
    if i < |args| { assert args[i..][1..] == args[i + 1..]; }
  }

  lemma Snoc<T>(s: seq<T>, x: T, t: seq<T>)
    ensures (s + [x]) + t == s + ([x] + t)
  {
  }

  /** What is split off so far and what the rest will be make up the whole. */
  ghost predicate SoFar(fs: FlagSet, args: seq<string>, i: nat, flags: seq<string>, positional: seq<string>)
    requires i <= |args|
  {
    Split(fs, args) == (flags + Split(fs, args[i..]).0, positional + Split(fs, args[i..]).1)
  }

  lemma SoFarStarts(fs: FlagSet, args: seq<string>)
    ensures SoFar(fs, args, 0, [], [])
  {
    assert args[0..] == args && [] + Split(fs, args).0 == Split(fs, args).0 && [] + Split(fs, args).1 == Split(fs, args).1;
  }

  lemma SoFarEnds(fs: FlagSet, args: seq<string>, i: nat, flags: seq<string>, positional: seq<string>)
    requires i <= |args| && (i == |args| || args[i] == "--") && SoFar(fs, args, i, flags, positional)
    ensures Split(fs, args) == (flags, positional + if i == |args| then [] else args[i + 1..])
  {
    SplitEnds(fs, args, i);
    assert flags + [] == flags;
  }

  lemma SoFarTurns(fs: FlagSet, args: seq<string>, i: nat, flags: seq<string>, positional: seq<string>)
    requires i < |args| && args[i] != "--" && SoFar(fs, args, i, flags, positional)
    ensures var a := args[i];
      if !FlagLike(a) then SoFar(fs, args, i + 1, flags, positional + [a])
      else if TakesValue(fs, a) && i + 1 < |args| then SoFar(fs, args, i + 2, flags + [a] + [args[i + 1]], positional)
      else SoFar(fs, args, i + 1, flags + [a], positional)
  {
    var a := args[i];
    SplitStep(fs, args, i);
    hide Split, TakesValue, FlagLike;
    Snoc(positional, a, Split(fs, args[i + 1..]).1);
    Snoc(flags, a, Split(fs, args[i + 1..]).0);
    if i + 1 < |args| {
      Snoc(flags, a, [args[i + 1]] + Split(fs, args[i + 2..]).0);
      Snoc(flags + [a], args[i + 1], Split(fs, args[i + 2..]).0);
    }
  }

  /** parseArgs, up to the list it hands to the flag package. */
  method ParseArgs(fs: FlagSet, args: seq<string>) returns (list: seq<string>)
    ensures list == Normalized(fs, args)
  {
    var flags: seq<string>, positional: seq<string> := [], [];
    var i := 0;
    hide Split, TakesValue, FlagLike, SoFar;
    SoFarStarts(fs, args);
    while i < |args|
      invariant 0 <= i <= |args| && SoFar(fs, args, i, flags, positional)
      decreases |args| - i
    {
      var a := args[i];
      if a == "--" {
        SoFarEnds(fs, args, i, flags, positional);
        positional := positional + args[i + 1..];
        return flags + ["--"] + positional;
      }
      SoFarTurns(fs, args, i, flags, positional);
      if !FlagLike(a) {
        positional := positional + [a];
        i := i + 1;
        continue;
      }
      flags := flags + [a];
      if TakesValue(fs, a) && i + 1 < |args| {
        i := i + 1;
        flags := flags + [args[i]];
      }
      i := i + 1;
    }
    SoFarEnds(fs, args, i, flags, positional);
    assert positional + [] == positional;
    list := flags + ["--"] + positional;
  }

  // ---------------------------------------------------------------------------
  // The normal form
  // ---------------------------------------------------------------------------

  lemma {:induction false} SplitNormalized(fs: FlagSet, args: seq<string>, p: seq<string>)
    requires !Dangling(fs, args)
    ensures Split(fs, Split(fs, args).0 + ["--"] + p) == (Split(fs, args).0, p)
    decreases |args|
  {
    var flags := Split(fs, args).0;
    if args == [] || args[0] == "--" {
      assert (["--"] + p)[1..] == p;
    } else if !FlagLike(args[0]) {
      SplitNormalized(fs, args[1..], p);
    } else if TakesValue(fs, args[0]) {
      SplitNormalized(fs, args[2..], p);
      assert (flags + ["--"] + p)[2..] == Split(fs, args[2..]).0 + ["--"] + p;
    } else {
      SplitNormalized(fs, args[1..], p);
      assert (flags + ["--"] + p)[1..] == Split(fs, args[1..]).0 + ["--"] + p;
    }
  }

  /** A flag and its value go together. */
  lemma SplitPair(fs: FlagSet, a: string, v: string, rest: seq<string>)
    requires FlagLike(a) && a != "--" && TakesValue(fs, a)
    ensures Split(fs, [a, v] + rest) == ([a, v] + Split(fs, rest).0, Split(fs, rest).1)
  {
    var all := [a, v] + rest;
    assert all[0] == a && all[1] == v && all[2..] == rest;
  }

  /** A flag without a value goes alone. */
  lemma SplitOne(fs: FlagSet, a: string, rest: seq<string>)
    requires FlagLike(a) && a != "--" && (rest == [] || !TakesValue(fs, a))
    ensures Split(fs, [a] + rest) == ([a] + Split(fs, rest).0, Split(fs, rest).1)
  {
    var all := [a] + rest;
    assert all[0] == a && all[1..] == rest;
  }

  lemma Behind(front: seq<string>, f: seq<string>, p: seq<string>)
    ensures (front + f) + ["--"] + p == front + (f + ["--"] + p)
  {
  }

  /** A dangling flag swallows the terminator. */
  lemma {:induction false} SplitDangling(fs: FlagSet, args: seq<string>, p: seq<string>)
    requires Dangling(fs, args)
    ensures var flags := Split(fs, args).0;
      Split(fs, flags + ["--"] + p) == (flags + ["--"] + Split(fs, p).0, Split(fs, p).1)
    decreases |args|
  {
    if !FlagLike(args[0]) {
      SplitDangling(fs, args[1..], p);
    } else if TakesValue(fs, args[0]) && |args| == 1 {
      DanglingAlone(fs, args, p);
    } else if TakesValue(fs, args[0]) {
      SplitDangling(fs, args[2..], p);
      DanglingPair(fs, args, p);
    } else {
      SplitDangling(fs, args[1..], p);
      DanglingOne(fs, args, p);
    }
  }

  lemma DanglingAlone(fs: FlagSet, args: seq<string>, p: seq<string>)
    requires |args| == 1 && FlagLike(args[0]) && args[0] != "--" && TakesValue(fs, args[0])
    ensures Split(fs, args).0 == [args[0]]
    ensures Split(fs, [args[0]] + ["--"] + p) == ([args[0]] + ["--"] + Split(fs, p).0, Split(fs, p).1)
  {
    var a := args[0];
    SplitOne(fs, a, []);
    assert args == [a] + [] && Split(fs, []).0 == [] && [a] + [] == [a];
    hide Split, TakesValue, FlagLike;
    SplitPair(fs, a, "--", p);
    assert [a] + ["--"] == [a, "--"];
  }

  lemma DanglingPair(fs: FlagSet, args: seq<string>, p: seq<string>)
    requires |args| >= 2 && FlagLike(args[0]) && args[0] != "--" && TakesValue(fs, args[0])
    requires var f := Split(fs, args[2..]).0; Split(fs, f + ["--"] + p) == (f + ["--"] + Split(fs, p).0, Split(fs, p).1)
    ensures var f := Split(fs, args).0; Split(fs, f + ["--"] + p) == (f + ["--"] + Split(fs, p).0, Split(fs, p).1)
  {
    hide Split, TakesValue, FlagLike;
    var a, v, f := args[0], args[1], Split(fs, args[2..]).0;
    assert args == [a, v] + args[2..];
    SplitPair(fs, a, v, args[2..]);
    SplitPair(fs, a, v, f + ["--"] + p);
    Behind([a, v], f, p);
    Behind([a, v], f, Split(fs, p).0);
  }

  lemma DanglingOne(fs: FlagSet, args: seq<string>, p: seq<string>)
    requires |args| >= 1 && FlagLike(args[0]) && args[0] != "--" && !TakesValue(fs, args[0])
    requires var f := Split(fs, args[1..]).0; Split(fs, f + ["--"] + p) == (f + ["--"] + Split(fs, p).0, Split(fs, p).1)
    ensures var f := Split(fs, args).0; Split(fs, f + ["--"] + p) == (f + ["--"] + Split(fs, p).0, Split(fs, p).1)
  {
    hide Split, TakesValue, FlagLike;
    var a, f := args[0], Split(fs, args[1..]).0;
    assert args == [a] + args[1..];
    SplitOne(fs, a, args[1..]);
    SplitOne(fs, a, f + ["--"] + p);
    Behind([a], f, p);
    Behind([a], f, Split(fs, p).0);
  }

  /** Splitting the rewritten list again gives the same flags and positionals if and only if
      the last argument is not a value flag without its value. */
  lemma NormalForm(fs: FlagSet, args: seq<string>)
    ensures Split(fs, Normalized(fs, args)) == Split(fs, args) <==> !Dangling(fs, args)
  {
    var (flags, p) := Split(fs, args);
    if Dangling(fs, args) {
      SplitDangling(fs, args, p);
      assert |flags + ["--"] + Split(fs, p).0| > |flags|;
    } else {
      SplitNormalized(fs, args, p);
    }
  }

  /** `c` consists of `a` and `b`, each in its own order. */
  predicate Interleaves(a: seq<string>, b: seq<string>, c: seq<string>)
    decreases |c|
  {
    if c == [] then a == [] && b == []
    else
      || (a != [] && a[0] == c[0] && Interleaves(a[1..], b, c[1..]))
      || (b != [] && b[0] == c[0] && Interleaves(a, b[1..], c[1..]))
  }

  /** The arguments without the first terminator that is not a flag's value. */
  function DropTerminator(fs: FlagSet, args: seq<string>): seq<string>
    decreases |args|
  {
    if args == [] then []
    else if args[0] == "--" then args[1..]
    else if FlagLike(args[0]) && TakesValue(fs, args[0]) && |args| > 1 then
      [args[0], args[1]] + DropTerminator(fs, args[2..])
    else [args[0]] + DropTerminator(fs, args[1..])
  }

  lemma {:induction false} AllSecond(p: seq<string>)
    ensures Interleaves([], p, p)
    decreases |p|
  {
    if p != [] { AllSecond(p[1..]); }
  }

  /** Nothing is lost, invented or reordered within its kind; only the terminator goes. */
  lemma {:induction false} SplitInterleaves(fs: FlagSet, args: seq<string>)
    ensures Interleaves(Split(fs, args).0, Split(fs, args).1, DropTerminator(fs, args))
    decreases |args|
  {
    if args == [] {
    } else if args[0] == "--" {
      AllSecond(args[1..]);
    } else {
      var (flags, p) := Split(fs, args);
      var c := DropTerminator(fs, args);
      if !FlagLike(args[0]) {
        SplitInterleaves(fs, args[1..]);
        assert p[1..] == Split(fs, args[1..]).1;
      } else if TakesValue(fs, args[0]) && |args| > 1 {
        SplitInterleaves(fs, args[2..]);
        assert flags[1..][1..] == Split(fs, args[2..]).0;
        assert c[1..][1..] == DropTerminator(fs, args[2..]);
        assert Interleaves(flags[1..], p, c[1..]);
      } else {
        SplitInterleaves(fs, args[1..]);
        assert flags[1..] == Split(fs, args[1..]).0;
      }
    }
  }

  // ---------------------------------------------------------------------------
  // Against the flag package
  // ---------------------------------------------------------------------------

  datatype Assignment = Assignment(name: string, value: string)

  datatype Parsed = Parsed(flags: seq<Assignment>, rest: seq<string>) | BadSyntax(arg: string) | Undefined(arg: string) | MissingValue(arg: string)

  /** One flag: what it assigns and whether it used the next argument. */
  datatype One = One(flag: Assignment, usedNext: bool) | Wrong(error: Parsed)

  function Dashes(a: string): (n: nat)
    requires FlagLike(a)
    ensures n <= |a|
  {
    if a[1] == '-' then 2 else 1
  }

  function IndexOf(s: string, c: char): (i: nat)
    requires c in s
    ensures i < |s| && s[i] == c && c !in s[..i]
  {
    if s[0] == c then 0
    else
      assert s == [s[0]] + s[1..];
      var j := IndexOf(s[1..], c);
      assert s[..j + 1] == [s[0]] + s[1..][..j];
      j + 1
  }

  /** The flag package on one flag: one or two dashes, a name, and perhaps a value. */
  function ParseOne(fs: FlagSet, a: string, next: Option<string>): One
    requires FlagLike(a)
  {
    var text := a[Dashes(a)..];
    if text == "" || text[0] == '-' || text[0] == '=' then Wrong(BadSyntax(a))
    else
      var written := '=' in text;
      var name := if written then text[..IndexOf(text, '=')] else text;
      if name !in fs then Wrong(Undefined(a))
      else if written then One(Assignment(name, text[IndexOf(text, '=') + 1..]), false)
      else if fs[name] then One(Assignment(name, "true"), false)
      else if next.Some? then One(Assignment(name, next.value), true)
      else Wrong(MissingValue(a))
  }

  function Next(args: seq<string>): Option<string> {
    if |args| > 1 then Some(args[1]) else None
  }

  function WithFlag(f: Assignment, p: Parsed): Parsed {
    if p.Parsed? then Parsed([f] + p.flags, p.rest) else p
  }

  function WithPositional(a: string, p: Parsed): Parsed {
    if p.Parsed? then Parsed(p.flags, [a] + p.rest) else p
  }

  /** FlagSet.Parse: flags up to the first argument that is none, or the terminator. */
  function FlagParse(fs: FlagSet, args: seq<string>): Parsed
    decreases |args|
  {
    if args == [] then Parsed([], [])
    else if !FlagLike(args[0]) then Parsed([], args)
    else if args[0] == "--" then Parsed([], args[1..])
    else
      var o := ParseOne(fs, args[0], Next(args));
      if o.Wrong? then o.error
      else if o.usedNext then WithFlag(o.flag, FlagParse(fs, args[2..]))
      else WithFlag(o.flag, FlagParse(fs, args[1..]))
  }

  /** The intended reading: flags and positionals in any order, until a terminator. */
  function Intended(fs: FlagSet, args: seq<string>): Parsed
    decreases |args|
  {
    if args == [] then Parsed([], [])
    else if args[0] == "--" then Parsed([], args[1..])
    else if !FlagLike(args[0]) then WithPositional(args[0], Intended(fs, args[1..]))
    else
      var o := ParseOne(fs, args[0], Next(args));
      if o.Wrong? then o.error
      else if o.usedNext then WithFlag(o.flag, Intended(fs, args[2..]))
      else WithFlag(o.flag, Intended(fs, args[1..]))
  }

  /** On a flag the flag package accepts, the normaliser agrees about the next argument. */
  lemma ParseOneAgrees(fs: FlagSet, a: string, next: Option<string>)
    requires FlagLike(a) && a != "--"
    ensures var o := ParseOne(fs, a, next);
      (o.One? ==> (o.usedNext <==> TakesValue(fs, a) && next.Some?))
      && (o.Wrong? && o.error.MissingValue? ==> TakesValue(fs, a) && next.None?)
      && (next.None? && TakesValue(fs, a) ==> o.Wrong?)
  {
    var text := a[Dashes(a)..];
    if text != "" && text[0] != '-' {
      assert TrimDashes(text) == text;
      assert TrimDashes(a) == text by {
        assert a[1..][1..] == a[2..];
      }
      if '=' in text && text[0] != '=' {
        assert TrimDashes(a) == text;
      }
    } else {
    }
  }

  /** An error other than a missing value does not depend on what follows. */
  lemma WrongIgnoresNext(fs: FlagSet, a: string, next: Option<string>, next': Option<string>)
    requires FlagLike(a) && a != "--" && ParseOne(fs, a, next).Wrong? && !ParseOne(fs, a, next).error.MissingValue?
    ensures ParseOne(fs, a, next') == ParseOne(fs, a, next)
  {
  }

  /** The flag package accepts the flag but for its value: one or two dashes, then a name it
      knows. */
  predicate Known(fs: FlagSet, a: string)
    requires FlagLike(a)
  {
    var text := a[Dashes(a)..];
    && text != "" && text[0] != '-' && text[0] != '='
    && (if '=' in text then text[..IndexOf(text, '=')] else text) in fs
  }

  /** Every flag before the terminator is known; values and positionals are passed over. */
  predicate AllKnown(fs: FlagSet, args: seq<string>)
    decreases |args|
  {
    if args == [] || args[0] == "--" then true
    else if !FlagLike(args[0]) then AllKnown(fs, args[1..])
    else
      Known(fs, args[0])
      && if TakesValue(fs, args[0]) && |args| > 1 then AllKnown(fs, args[2..]) else AllKnown(fs, args[1..])
  }

  lemma KnownIff(fs: FlagSet, a: string, next: Option<string>)
    requires FlagLike(a) && a != "--"
    ensures Known(fs, a) <==> ParseOne(fs, a, next).One? || ParseOne(fs, a, next).error.MissingValue?
  {
  }

  /** A list that ends in a flag without its value fails for that reason if and only if
      nothing is wrong before. */
  lemma {:induction false} DanglingMissesValue(fs: FlagSet, args: seq<string>)
    requires Dangling(fs, args)
    ensures Intended(fs, args).MissingValue? <==> AllKnown(fs, args)
    decreases |args|
  {
    if !FlagLike(args[0]) {
      DanglingMissesValue(fs, args[1..]);
    } else {
      ParseOneAgrees(fs, args[0], Next(args));
      KnownIff(fs, args[0], Next(args));
      hide ParseOne, TakesValue, Known;
      if TakesValue(fs, args[0]) {
        if |args| > 1 { DanglingMissesValue(fs, args[2..]); }
      } else {
        DanglingMissesValue(fs, args[1..]);
      }
    }
  }

  /** The flag package reads the rewritten list as the original was meant (the same flags
      assigned in the same order and the same positionals, or the same first error) unless,
      and only unless, the last argument is a value flag without its value and every flag is
      known. */
  lemma ParsesAsIntended(fs: FlagSet, args: seq<string>)
    ensures FlagParse(fs, Normalized(fs, args)) == Intended(fs, args) <==> !(Dangling(fs, args) && AllKnown(fs, args))
  {
    hide AllKnown;
    if Dangling(fs, args) { DanglingMissesValue(fs, args); }
    if Dangling(fs, args) && AllKnown(fs, args) {
      MissingValueSwallowsTerminator(fs, args);
    } else {
      ParsesWith(fs, args, Split(fs, args).1);
      IntendedRest(fs, args);
    }
  }

  function WithRest(p: Parsed, rest: seq<string>): Parsed {
    if p.Parsed? then Parsed(p.flags, rest) else p
  }

  lemma {:induction false} IntendedRest(fs: FlagSet, args: seq<string>)
    ensures Intended(fs, args) == WithRest(Intended(fs, args), Split(fs, args).1)
    decreases |args|
  {
    if args != [] && args[0] != "--" {
      if !FlagLike(args[0]) {
        IntendedRest(fs, args[1..]);
      } else {
        ParseOneAgrees(fs, args[0], Next(args));
        if TakesValue(fs, args[0]) && |args| > 1 {
          IntendedRest(fs, args[2..]);
        } else {
          IntendedRest(fs, args[1..]);
        }
      }
    }
  }

  lemma {:induction false} ParsesWith(fs: FlagSet, args: seq<string>, p: seq<string>)
    requires !(Dangling(fs, args) && Intended(fs, args).MissingValue?)
    ensures FlagParse(fs, Split(fs, args).0 + ["--"] + p) == WithRest(Intended(fs, args), p)
    decreases |args|
  {
    var flags := Split(fs, args).0;
    var all := flags + ["--"] + p;
    if args == [] || args[0] == "--" {
      assert all[1..] == p;
    } else if !FlagLike(args[0]) {
      ParsesWith(fs, args[1..], p);
    } else {
      ParseOneAgrees(fs, args[0], Next(args));
      ParseOneAgrees(fs, args[0], Next(all));
      hide ParseOne, TrimDashes;
      if ParseOne(fs, args[0], Next(args)).Wrong? {
        assert all[0] == args[0];
        WrongIgnoresNext(fs, args[0], Next(args), Next(all));
      } else if TakesValue(fs, args[0]) {
        assert all[1] == args[1];
        assert all[2..] == Split(fs, args[2..]).0 + ["--"] + p;
        ParsesWith(fs, args[2..], p);
      } else {
        assert all[1..] == Split(fs, args[1..]).0 + ["--"] + p;
        ParseOneIgnoresNext(fs, args[0], Next(args), Next(all));
        ParsesWith(fs, args[1..], p);
      }
    }
  }

  lemma ParseOneIgnoresNext(fs: FlagSet, a: string, next: Option<string>, next': Option<string>)
    requires FlagLike(a) && a != "--" && !TakesValue(fs, a)
    ensures ParseOne(fs, a, next) == ParseOne(fs, a, next')
  {
    ParseOneAgrees(fs, a, next);
    ParseOneAgrees(fs, a, next');
  }

  /** The last flag was assigned the terminator, and the positionals are `p`. */
  ghost predicate Swallowed(r: Parsed, p: seq<string>) {
    r.Parsed? && r.flags != [] && r.flags[|r.flags| - 1].value == "--" && r.rest == p
  }

  /** When the value is missing at the very end and nothing else is wrong, the error is lost:
      the flag is assigned the terminator. */
  lemma MissingValueSwallowsTerminator(fs: FlagSet, args: seq<string>)
    requires Dangling(fs, args) && AllKnown(fs, args)
    ensures var r := FlagParse(fs, Normalized(fs, args));
      r.Parsed? && r.flags != [] && r.flags[|r.flags| - 1].value == "--" && r.rest == Split(fs, args).1
  {
    DanglingMissesValue(fs, args);
    PositionalsPlain(fs, args);
    SwallowsWith(fs, args, Split(fs, args).1);
  }

  lemma {:induction false} PositionalsPlain(fs: FlagSet, args: seq<string>)
    requires Dangling(fs, args)
    ensures forall i :: 0 <= i < |Split(fs, args).1| ==> !FlagLike(Split(fs, args).1[i])
    decreases |args|
  {
    if !FlagLike(args[0]) {
      PositionalsPlain(fs, args[1..]);
    } else if TakesValue(fs, args[0]) {
      if |args| > 1 { PositionalsPlain(fs, args[2..]); }
    } else {
      PositionalsPlain(fs, args[1..]);
    }
  }

  lemma SwallowedBehind(f: Assignment, r: Parsed, p: seq<string>)
    requires Swallowed(r, p)
    ensures Swallowed(WithFlag(f, r), p)
  {
    assert ([f] + r.flags)[|r.flags|] == r.flags[|r.flags| - 1];
  }

  lemma {:induction false} SwallowsWith(fs: FlagSet, args: seq<string>, p: seq<string>)
    requires Dangling(fs, args) && Intended(fs, args).MissingValue?
    requires forall i :: 0 <= i < |p| ==> !FlagLike(p[i])
    ensures Swallowed(FlagParse(fs, Split(fs, args).0 + ["--"] + p), p)
    decreases |args|
  {
    var flags := Split(fs, args).0;
    var all := flags + ["--"] + p;
    if !FlagLike(args[0]) {
      SwallowsWith(fs, args[1..], p);
    } else {
      var o := ParseOne(fs, args[0], Next(all));
      ParseOneAgrees(fs, args[0], Next(args));
      ParseOneAgrees(fs, args[0], Next(all));
      hide ParseOne, TrimDashes, Swallowed;
      if !TakesValue(fs, args[0]) {
        assert all[1..] == Split(fs, args[1..]).0 + ["--"] + p;
        ParseOneIgnoresNext(fs, args[0], Next(args), Next(all));
        SwallowsWith(fs, args[1..], p);
        SwallowedBehind(o.flag, FlagParse(fs, all[1..]), p);
      } else if |args| == 1 {
        assert all[2..] == p && Next(all) == Some("--");
        SwallowedOne(fs, args[0]);
        SwallowedLast(o.flag, FlagParse(fs, p), p);
      } else {
        assert all[1] == args[1];
        assert all[2..] == Split(fs, args[2..]).0 + ["--"] + p;
        SwallowsWith(fs, args[2..], p);
        SwallowedBehind(o.flag, FlagParse(fs, all[2..]), p);
      }
    }
  }

  lemma SwallowedLast(f: Assignment, r: Parsed, p: seq<string>)
    requires f.value == "--" && r == Parsed([], p)
    ensures Swallowed(WithFlag(f, r), p)
  {
  }

  lemma SwallowedOne(fs: FlagSet, a: string)
    requires FlagLike(a) && a != "--" && ParseOne(fs, a, None).Wrong? && ParseOne(fs, a, None).error.MissingValue?
    ensures var o := ParseOne(fs, a, Some("--")); o.One? && o.usedNext && o.flag.value == "--"
  {
  }
}
