/**
 * lib/optioning.rb: splits a variadic call into positional values and a
 * trailing options mapping, renames deprecated options, and reports
 * deprecated and unrecognized options on a diagnostic channel.
 */
module Optionings {
  import opened Wrappers
  import opened OptionMaps
  import opened Deprecations
  import opened Dates

  /** One argument of the call: a positional value, or a Hash. */
  datatype Arg<V> = Pos(value: V) | Opts(m: Mapping<V>)

  /**
   * The constructor's split: a Hash in last position is the options
   * mapping and the rest are the values; otherwise every argument is a
   * value and there is no mapping.
   */
  function Split<V>(args: seq<Arg<V>>): (r: (seq<Arg<V>>, Option<Mapping<V>>))
    ensures r.1.Some? <==> |args| > 0 && args[|args| - 1].Opts?
    ensures r.1.Some? ==> args == r.0 + [Opts(r.1.value)]
    ensures r.1.None? ==> r.0 == args
  {
    if |args| > 0 && args[|args| - 1].Opts? then (args[..|args| - 1], Some(args[|args| - 1].m))
    else (args, None)
  }

  predicate NoDup(ks: seq<Key>) {
    forall i, j :: 0 <= i < j < |ks| ==> ks[i] != ks[j]
  }

  /**
   * Appends each key not yet present, in order: the recognized list keeps
   * the order in which keys were first declared.
   */
  function AddKeys(recognized: seq<Key>, ks: seq<Key>): (r: seq<Key>)
    ensures |r| >= |recognized| && r[..|recognized|] == recognized
    decreases |ks|
  {
    if ks == [] then recognized
    else AddKeys(if ks[0] in recognized then recognized else recognized + [ks[0]], ks[1..])
  }

  /** A key is recognized afterwards exactly when it was before or is among the added ones. */
  lemma {:induction false} AddKeysMembers(recognized: seq<Key>, ks: seq<Key>, k: Key)
    ensures k in AddKeys(recognized, ks) <==> k in recognized || k in ks
    decreases |ks|
  {
    if ks != [] {
      var next := if ks[0] in recognized then recognized else recognized + [ks[0]];
      AddKeysMembers(next, ks[1..], k);
      assert k in ks <==> k == ks[0] || k in ks[1..];
    }
  }

  /** No key is recognized twice. */
  lemma {:induction false} AddKeysNoDup(recognized: seq<Key>, ks: seq<Key>)
    requires NoDup(recognized)
    ensures NoDup(AddKeys(recognized, ks))
    decreases |ks|
  {
    if ks != [] {
      var next := if ks[0] in recognized then recognized else recognized + [ks[0]];
      AddKeysNoDup(next, ks[1..]);
    }
  }

  /** Recognizing a + b is recognizing a, then b. */
  lemma {:induction false} AddKeysAppend(recognized: seq<Key>, a: seq<Key>, b: seq<Key>)
    ensures AddKeys(recognized, a + b) == AddKeys(AddKeys(recognized, a), b)
    decreases |a|
  {
    if a == [] {
      assert a + b == b;
    } else {
      var next := if a[0] in recognized then recognized else recognized + [a[0]];
      assert (a + b)[0] == a[0] && (a + b)[1..] == a[1..] + b;
      AddKeysAppend(next, a[1..], b);
    }
  }

  /**
   * The order of first declaration: one more key is appended at the end
   * when it is new, and changes nothing when it is already recognized.
   */
  lemma AddKeysSnoc(recognized: seq<Key>, ks: seq<Key>, k: Key)
    ensures var before := AddKeys(recognized, ks);
            AddKeys(recognized, ks + [k]) == if k in before then before else before + [k]
  {
    AddKeysAppend(recognized, ks, [k]);
    var before := AddKeys(recognized, ks);
    var next := if k in before then before else before + [k];
    assert [k][1..] == [];
    assert AddKeys(before, [k]) == AddKeys(next, []);
  }

  /** The supplied keys that are neither recognized nor deprecated, in the mapping's order. */
  function Unrecognized(keys: seq<Key>, recognized: seq<Key>, deprecated: seq<Key>): (u: seq<Key>)
    ensures |u| <= |keys|
    ensures keys != [] && keys[0] !in recognized && keys[0] !in deprecated ==> u != [] && u[0] == keys[0]
  {
    if keys == [] then []
    else
      (if keys[0] in recognized || keys[0] in deprecated then [] else [keys[0]]) +
      Unrecognized(keys[1..], recognized, deprecated)
  }

  /** A key is reported exactly when it was supplied and is neither recognized nor deprecated. */
  lemma {:induction false} UnrecognizedMembers(keys: seq<Key>, recognized: seq<Key>, deprecated: seq<Key>, k: Key)
    ensures k in Unrecognized(keys, recognized, deprecated) <==> k in keys && k !in recognized && k !in deprecated
    decreases |keys|
  {
    if keys != [] {
      UnrecognizedMembers(keys[1..], recognized, deprecated, k);
      assert k in keys <==> k == keys[0] || k in keys[1..];
    }
  }

  /** Filtering keeps the order: the keys of a + b are reported as those of a, then those of b. */
  lemma {:induction false} UnrecognizedConcat(a: seq<Key>, b: seq<Key>, recognized: seq<Key>, deprecated: seq<Key>)
    ensures Unrecognized(a + b, recognized, deprecated) ==
            Unrecognized(a, recognized, deprecated) + Unrecognized(b, recognized, deprecated)
    decreases |a|
  {
    if a != [] {
      var head := if a[0] in recognized || a[0] in deprecated then [] else [a[0]];
      var rest, tail := Unrecognized(a[1..], recognized, deprecated), Unrecognized(b, recognized, deprecated);
      calc {
        Unrecognized(a + b, recognized, deprecated);
      == { assert (a + b)[0] == a[0] && (a + b)[1..] == a[1..] + b; }
        head + Unrecognized(a[1..] + b, recognized, deprecated);
      == { UnrecognizedConcat(a[1..], b, recognized, deprecated); }
        head + (rest + tail);
      ==
        head + rest + tail;
      }
    } else {
      assert a + b == b;
    }
  }

  /** Nothing is reported when every supplied key is recognized or deprecated. */
  lemma {:induction false} AllKnown(known: seq<Key>, recognized: seq<Key>, deprecated: seq<Key>)
    requires forall i :: 0 <= i < |known| ==> known[i] in recognized || known[i] in deprecated
    ensures Unrecognized(known, recognized, deprecated) == []
    decreases |known|
  {
    if known != [] {
      AllKnown(known[1..], recognized, deprecated);
    }
  }

  lemma AppendAssoc(a: string, b: string, c: string)
    ensures a + (b + c) == a + b + c
  {
  }

  function NoteLine(k: Key): string {
    "NOTE: unrecognized option `:" + k + "` used.\n"
  }

  /** One note per key, in order. */
  function NoteLines(ks: seq<Key>): string {
    if ks == [] then "" else NoteLines(ks[..|ks| - 1]) + NoteLine(ks[|ks| - 1])
  }

  lemma NoteLinesSnoc(ks: seq<Key>, i: nat)
    requires i < |ks|
    ensures NoteLines(ks[..i + 1]) == NoteLines(ks[..i]) + NoteLine(ks[i])
  {
    assert ks[..i + 1][..i] == ks[..i];
  }

  /** The notes on a + b are the notes on a, then the notes on b. */
  lemma {:induction false} NoteLinesConcat(a: seq<Key>, b: seq<Key>)
    ensures NoteLines(a + b) == NoteLines(a) + NoteLines(b)
    decreases |b|
  {
    if b == [] {
      assert a + b == a;
    } else {
      var c := a + b;
      var front, last := b[..|b| - 1], b[|b| - 1];
      assert c[..|c| - 1] == a + front && c[|c| - 1] == last;
      var line := NoteLine(last);
      assert NoteLines(c) == NoteLines(a + front) + line;
      assert NoteLines(b) == NoteLines(front) + line;
      NoteLinesConcat(a, front);
      AppendAssoc(NoteLines(a), NoteLines(front), line);
    }
  }

  /** One note per key: a single key's notes are its one line. */
  lemma NoteLinesOne(k: Key)
    ensures NoteLines([k]) == "NOTE: unrecognized option `:" + k + "` used.\n"
  {
    assert [k][..0] == [];
  }

  function Quoted(k: Key): string {
    "`:" + k + "`"
  }

  /** The keys, each as `:k`, separated by ", ". */
  function QuotedList(ks: seq<Key>): string {
    if ks == [] then ""
    else if |ks| == 1 then Quoted(ks[0])
    else QuotedList(ks[..|ks| - 1]) + ", " + Quoted(ks[|ks| - 1])
  }

  function Summary(recognized: seq<Key>): string {
    "You should use only the following: " + QuotedList(recognized)
  }

  /**
   * What unrecognized_warn writes: nothing when every supplied key is
   * known; otherwise one note per unrecognized key, the summary of the
   * recognized keys, and the call site's first frame when there is one.
   */
  function UnrecognizedReport(unrecognized: seq<Key>, recognized: seq<Key>, calledFrom: seq<string>): (s: string)
    ensures unrecognized == [] <==> s == ""
  {
    if unrecognized == [] then ""
    else
      NoteLines(unrecognized) + Summary(recognized) +
      (if |calledFrom| > 0 then CalledFromPart(calledFrom[0]) else "")
  }

  /** A call site adds "\nCalled from C." after the summary, with the first frame C, and changes nothing else. */
  lemma ReportCallSite(unrecognized: seq<Key>, recognized: seq<Key>, calledFrom: seq<string>)
    requires unrecognized != [] && |calledFrom| > 0
    ensures UnrecognizedReport(unrecognized, recognized, calledFrom) ==
            UnrecognizedReport(unrecognized, recognized, []) + "\nCalled from " + calledFrom[0] + "."
  {
    var plain := NoteLines(unrecognized) + Summary(recognized);
    assert UnrecognizedReport(unrecognized, recognized, []) == plain + "";
    assert plain + "" == plain;
    AppendAssoc(plain, "\nCalled from " + calledFrom[0], ".");
  }

  function Rules(ds: seq<Deprecation>): (rules: seq<Rule>)
    ensures |rules| == |ds| && forall i :: 0 <= i < |ds| ==> rules[i] == (ds[i].option, ds[i].replacement)
  {
    if ds == [] then [] else [(ds[0].option, ds[0].replacement)] + Rules(ds[1..])
  }

  function DeprecatedKeys(ds: seq<Deprecation>): (ks: seq<Key>)
    ensures |ks| == |ds| && forall i :: 0 <= i < |ds| ==> ks[i] == ds[i].option
  {
    if ds == [] then [] else [ds[0].option] + DeprecatedKeys(ds[1..])
  }

  /** The warnings of the rules whose deprecated key the caller supplied, in registration order. */
  function DeprecationNotes(ds: seq<Deprecation>, supplied: seq<Key>): string
    requires forall i :: 0 <= i < |ds| ==> ds[i].Valid()
    reads ds`caller
  {
    if ds == [] then ""
    else
      var d := ds[|ds| - 1];
      DeprecationNotes(ds[..|ds| - 1], supplied) + (if d.option in supplied then d.Warn() else "")
  }

  /** One more rule adds its warning, if its key was supplied, at the end. */
  lemma DeprecationNotesSnoc(ds: seq<Deprecation>, i: nat, supplied: seq<Key>)
    requires forall j :: 0 <= j < |ds| ==> ds[j].Valid()
    requires i < |ds|
    ensures DeprecationNotes(ds[..i + 1], supplied) ==
            DeprecationNotes(ds[..i], supplied) + (if ds[i].option in supplied then ds[i].Warn() else "")
  {
    assert ds[..i + 1][..i] == ds[..i] && ds[..i + 1][i] == ds[i];
  }

  /** A single rule warns exactly when its deprecated key was supplied. */
  lemma DeprecationNotesOne(d: Deprecation, supplied: seq<Key>)
    requires d.Valid()
    ensures d.option in supplied ==> DeprecationNotes([d], supplied) == d.Warn()
    ensures d.option !in supplied ==> DeprecationNotes([d], supplied) == ""
  {
    assert [d][..0] == [];
  }

  /** The warnings of a + b are those of a, then those of b: registration order is kept. */
  lemma {:induction false} DeprecationNotesConcat(a: seq<Deprecation>, b: seq<Deprecation>, supplied: seq<Key>)
    requires forall i :: 0 <= i < |a| ==> a[i].Valid()
    requires forall i :: 0 <= i < |b| ==> b[i].Valid()
    ensures forall i :: 0 <= i < |a + b| ==> (a + b)[i].Valid()
    ensures DeprecationNotes(a + b, supplied) == DeprecationNotes(a, supplied) + DeprecationNotes(b, supplied)
    decreases |b|
  {
    var c := a + b;
    forall i | 0 <= i < |c| ensures c[i].Valid() {
      if i < |a| { assert c[i] == a[i]; } else { assert c[i] == b[i - |a|]; }
    }
    if b == [] {
      assert c == a;
    } else {
      var front := b[..|b| - 1];
      var last := b[|b| - 1];
      assert c[..|c| - 1] == a + front && c[|c| - 1] == last;
      DeprecationNotesConcat(a, front, supplied);
      var tail := if last.option in supplied then last.Warn() else "";
      AppendAssoc(DeprecationNotes(a, supplied), DeprecationNotes(front, supplied), tail);
    }
  }

  /** Rules whose deprecated key was never supplied write nothing. */
  lemma {:induction false} NoSuppliedNoNotes(ds: seq<Deprecation>, supplied: seq<Key>)
    requires forall i :: 0 <= i < |ds| ==> ds[i].Valid()
    requires forall i :: 0 <= i < |ds| ==> ds[i].option !in supplied
    ensures DeprecationNotes(ds, supplied) == ""
    decreases |ds|
  {
    if ds != [] {
      var front := ds[..|ds| - 1];
      assert forall i :: 0 <= i < |front| ==> front[i] == ds[i];
      NoSuppliedNoNotes(front, supplied);
    }
  }

  /** Of two rules, only the first one's key was supplied: its warning is all there is. */
  lemma DeprecationNotesFirstOfTwo(d0: Deprecation, d1: Deprecation, supplied: seq<Key>)
    requires d0.Valid() && d1.Valid()
    requires d0.option in supplied && d1.option !in supplied
    ensures DeprecationNotes([d0, d1], supplied) == d0.Warn()
  {
    var ds := [d0, d1];
    forall i | 0 <= i < |ds| ensures ds[i].Valid() {
      if i == 0 { assert ds[i] == d0; } else { assert ds[i] == d1; }
    }
    var first := ds[..1];
    assert |first| == 1 && first[0] == d0;
    assert DeprecationNotes(first[..0], supplied) == "";
    assert DeprecationNotes(first, supplied) == "" + d0.Warn();
    assert DeprecationNotes(ds, supplied) == DeprecationNotes(first, supplied) + "";
    assert "" + d0.Warn() + "" == d0.Warn();
  }

  /** Alias resolution on the working options; nothing to do without a mapping. */
  function ResolveOptions<V>(options: Option<Mapping<V>>, rules: seq<Rule>): (r: Option<Mapping<V>>)
    ensures r.Some? <==> options.Some?
  {
    match options
    case None => None
    case Some(m) => Some(ResolveAll(m, rules))
  }

  /** The value of option k: none when there is no mapping or k is not in it. */
  function OptionOn<V>(options: Option<Mapping<V>>, k: Key): (r: Option<V>)
    ensures r.Some? <==> options.Some? && k in Keys(options.value)
    ensures r.Some? ==> (k, r.value) in options.value
  {
    match options
    case None => None
    case Some(m) => Lookup(m, k)
  }

  /** What `@options[option]` raises when no Hash was passed. */
  datatype RubyError = NoMethodError

  /** Optioning#on as lib/optioning.rb:44-46 writes it: indexing a nil `@options` raises. */
  function OnAsWritten<V>(options: Option<Mapping<V>>, k: Key): (r: Result<Option<V>, RubyError>)
    ensures r.Err? <==> options.None?
    ensures r.Ok? ==> r.value == OptionOn(options, k)
  {
    match options
    case None => Err(NoMethodError)
    case Some(m) => Ok(Lookup(m, k))
  }

  /** A call without a trailing Hash makes `on`, as lib/optioning.rb:44-46 writes it, raise for every key. */
  lemma OnAsWrittenRaisesWithoutOptions<V>(x: V, k: Key)
    ensures Split([Pos(x)]).1 == None
    ensures OnAsWritten(Split([Pos(x)]).1, k) == Err(NoMethodError)
    ensures OptionOn(Split([Pos(x)]).1, k) == None
  {
  }

  /** lib/optioning.rb: one instance per incoming call. */
  class Optioning<V> {
    /** `@args`, returned by raw. */
    const args: seq<Arg<V>>
    /** `@values`: the copy of the arguments with a trailing Hash popped off. */
    const values: seq<Arg<V>>
    /** `@options`: the working copy of the trailing Hash, none when there was none. */
    var options: Option<Mapping<V>>
    /** The registered deprecation rules, in registration order. */
    var deprecations: seq<Deprecation>
    /** The recognized keys, in the order first declared. */
    var recognized: seq<Key>
    /** The diagnostic channel ($stderr): everything written so far. */
    var stderr: string

    ghost predicate Valid()
      reads this`options, this`deprecations, this`recognized
    {
      values == Split(args).0 &&
      (options.Some? <==> Split(args).1.Some?) &&
      (forall i :: 0 <= i < |deprecations| ==> deprecations[i].Valid()) &&
      (forall i :: 0 <= i < |deprecations| ==> deprecations[i].replacement in recognized) &&
      NoDup(recognized)
    }

    /** The Hash the caller passed last, as passed. */
    /** The rule objects, whose call sites deprecation_warn may set. */
    function Records(): set<Deprecation>
      reads this`deprecations
    {
      set i | 0 <= i < |deprecations| :: deprecations[i]
    }

    function Supplied(): Option<Mapping<V>> {
      Split(args).1
    }

    function SuppliedKeys(): (ks: seq<Key>)
      ensures Supplied().None? ==> ks == []
      ensures Supplied().Some? ==> ks == Keys(Supplied().value)
    {
      match Supplied()
      case None => []
      case Some(m) => Keys(m)
    }

    /** Optioning.new(*args): the arguments are kept, a copy loses its trailing Hash. */
    constructor (args: seq<Arg<V>>)
      ensures this.args == args
      ensures Split(args).1.Some? ==> values == args[..|args| - 1] && options == Some(args[|args| - 1].m)
      ensures Split(args).1.None? ==> values == args && options == None
      ensures deprecations == [] && recognized == [] && stderr == ""
      ensures Valid()
    {
      this.args := args;
      var copy := args;
      if |args| > 0 && args[|args| - 1].Opts? {
        options := Some(copy[|copy| - 1].m);
        copy := copy[..|copy| - 1];
      } else {
        options := None;
      }
      values := copy;
      deprecations := [];
      recognized := [];
      stderr := "";
    }

    /** Optioning#raw: the arguments as passed; with a mapping they are the values and then it. */
    function Raw(): (r: seq<Arg<V>>)
      requires Valid()
      reads this
      ensures Supplied().Some? ==> r == values + [Opts(Supplied().value)]
      ensures Supplied().None? ==> r == values
    {
      args
    }

    /** Optioning#values: the arguments without a trailing mapping. */
    function Values(): (r: seq<Arg<V>>)
      requires Valid()
      reads this
      ensures Supplied().Some? ==> args == r + [Opts(Supplied().value)] && |r| == |args| - 1
      ensures Supplied().None? ==> r == args
    {
      values
    }

    /**
     * Optioning#on: resolves every registered alias on the working
     * options, then looks the key up. Without a mapping it answers none
     * (see OnAsWritten for `on` as lib/optioning.rb:44-46 writes it, which raises).
     */
    method On(k: Key) returns (r: Option<V>)
      requires Valid()
      modifies this`options
      ensures Valid()
      ensures options == ResolveOptions(old(options), Rules(deprecations))
      ensures r == OptionOn(options, k)
    {
      options := ResolveOptions(options, Rules(deprecations));
      r := OptionOn(options, k);
    }

    /** Optioning#recognize(*keys): declares the keys as supported; returns the instance. */
    method Recognize(keys: seq<Key>) returns (self: Optioning<V>)
      requires Valid()
      modifies this`recognized
      ensures Valid() && self == this
      ensures recognized == AddKeys(old(recognized), keys)
      ensures options == old(options) && deprecations == old(deprecations) && stderr == old(stderr)
    {
      AddKeysNoDup(recognized, keys);
      forall k | k in recognized {
        AddKeysMembers(recognized, keys, k);
      }
      recognized := AddKeys(recognized, keys);
      self := this;
    }

    /**
     * Optioning#deprecate: registers a rule and recognizes its
     * replacement; returns the instance. Where Date.new raises on the
     * deadline, nothing is registered and the error is returned.
     */
    method Deprecate(option: Key, replacement: Key, versionOrYear: Option<VersionOrYear>, month: Option<int>)
      returns (r: Result<Optioning<V>, DateError>)
      requires Valid()
      modifies this`deprecations, this`recognized
      ensures Valid()
      ensures ExtractDateAndVersion(versionOrYear, month).Err? ==>
        r == Err(ExtractDateAndVersion(versionOrYear, month).error) &&
        deprecations == old(deprecations) && recognized == old(recognized)
      ensures ExtractDateAndVersion(versionOrYear, month).Ok? ==>
        r == Ok(this) &&
        |deprecations| == |old(deprecations)| + 1 &&
        deprecations[..|old(deprecations)|] == old(deprecations) &&
        recognized == AddKeys(old(recognized), [replacement])
      ensures ExtractDateAndVersion(versionOrYear, month).Ok? ==>
        var d := deprecations[|deprecations| - 1];
        fresh(d) && d.option == option && d.replacement == replacement && d.caller == None &&
        (d.date, d.version) == ExtractDateAndVersion(versionOrYear, month).value
      ensures options == old(options) && stderr == old(stderr)
    {
      match ExtractDateAndVersion(versionOrYear, month)
      case Err(e) =>
        r := Err(e);
      case Ok(_) =>
        var d := new Deprecation(option, replacement, versionOrYear, month);
        deprecations := deprecations + [d];
        AddKeysNoDup(recognized, [replacement]);
        AddKeysMembers(recognized, [replacement], replacement);
        forall k | k in recognized {
          AddKeysMembers(recognized, [replacement], k);
        }
        recognized := AddKeys(recognized, [replacement]);
        r := Ok(this);
    }

    /**
     * Optioning#deprecation_warn(called_from): gives every rule the first
     * frame of the call site, when one is given, then writes the warning
     * of each rule whose deprecated key the caller supplied.
     */
    method DeprecationWarn(calledFrom: seq<string>) returns (self: Optioning<V>)
      requires Valid()
      modifies this`stderr, Records()
      ensures Valid() && self == this
      ensures |calledFrom| > 0 ==>
        forall i :: 0 <= i < |deprecations| ==> deprecations[i].caller == Some(calledFrom[0])
      ensures |calledFrom| == 0 ==>
        forall i :: 0 <= i < |deprecations| ==> deprecations[i].caller == old(deprecations[i].caller)
      ensures stderr == old(stderr) + DeprecationNotes(deprecations, SuppliedKeys())
      ensures options == old(options) && deprecations == old(deprecations) && recognized == old(recognized)
    {
      if |calledFrom| > 0 {
        SetCallers(calledFrom[0]);
      }
      WriteDeprecationNotes(SuppliedKeys());
      self := this;
    }

    /** Every rule's call site becomes c. */
    method SetCallers(c: string)
      requires Valid()
      modifies Records()
      ensures forall i :: 0 <= i < |deprecations| ==> deprecations[i].caller == Some(c)
    {
      var i := 0;
      while i < |deprecations|
        invariant 0 <= i <= |deprecations|
        invariant forall j :: 0 <= j < i ==> deprecations[j].caller == Some(c)
      {
        deprecations[i].SetCaller(Some(c));
        i := i + 1;
      }
    }

    /** Writes the warning of each rule whose deprecated key is among the supplied ones. */
    method WriteDeprecationNotes(supplied: seq<Key>)
      requires Valid()
      modifies this`stderr
      ensures stderr == old(stderr) + DeprecationNotes(deprecations, supplied)
    {
      var ds := deprecations;
      var written := "";
      var i := 0;
      while i < |ds|
        invariant 0 <= i <= |ds|
        invariant written == DeprecationNotes(ds[..i], supplied) && stderr == old(stderr)
      {
        var d := ds[i];
        DeprecationNotesSnoc(ds, i, supplied);
        if d.option in supplied {
          written := written + d.Warn();
        } else {
          assert written + "" == written;
        }
        i := i + 1;
      }
      assert ds[..i] == ds;
      assert written == DeprecationNotes(deprecations, supplied);
      stderr := stderr + written;
    }

    /** Writes one note per key, in order. */
    method WriteNotes(ks: seq<Key>)
      modifies this`stderr
      ensures stderr == old(stderr) + NoteLines(ks)
    {
      var i := 0;
      while i < |ks|
        invariant 0 <= i <= |ks|
        invariant stderr == old(stderr) + NoteLines(ks[..i])
      {
        ghost var done := NoteLines(ks[..i]);
        NoteLinesSnoc(ks, i);
        AppendAssoc(old(stderr), done, NoteLine(ks[i]));
        stderr := stderr + NoteLine(ks[i]);
        i := i + 1;
      }
      assert ks[..i] == ks;
    }

    /** The supplied keys that are neither recognized nor deprecated. */
    function UnrecognizedKeys(): seq<Key>
      reads this`deprecations, this`recognized
    {
      Unrecognized(SuppliedKeys(), recognized, DeprecatedKeys(deprecations))
    }

    /**
     * Optioning#unrecognized_warn(called_from): writes one note per
     * unrecognized key, then which keys are recognized.
     */
    method UnrecognizedWarn(calledFrom: seq<string>) returns (self: Optioning<V>)
      requires Valid()
      modifies this`stderr
      ensures Valid() && self == this
      ensures stderr == old(stderr) + UnrecognizedReport(UnrecognizedKeys(), recognized, calledFrom)
      ensures Supplied().None? ==> stderr == old(stderr)
      ensures options == old(options) && deprecations == old(deprecations) && recognized == old(recognized)
    {
      var unrecognized := UnrecognizedKeys();
      if unrecognized != [] {
        WriteNotes(unrecognized);
        var summary := Summary(recognized);
        var tail := if |calledFrom| > 0 then CalledFromPart(calledFrom[0]) else "";
        stderr := stderr + summary;
        stderr := stderr + tail;
        AppendAssoc(old(stderr), NoteLines(unrecognized), summary);
        AppendAssoc(old(stderr), NoteLines(unrecognized) + summary, tail);
      }
      self := this;
    }

    /**
     * Optioning#process(called_from): the deprecation warnings, then the
     * unrecognized-option report; returns the instance.
     */
    method Process(calledFrom: seq<string>) returns (self: Optioning<V>)
      requires Valid()
      modifies this`stderr, Records()
      ensures Valid() && self == this
      ensures |calledFrom| > 0 ==>
        forall i :: 0 <= i < |deprecations| ==> deprecations[i].caller == Some(calledFrom[0])
      ensures |calledFrom| == 0 ==>
        forall i :: 0 <= i < |deprecations| ==> deprecations[i].caller == old(deprecations[i].caller)
      ensures stderr == old(stderr) + DeprecationNotes(deprecations, SuppliedKeys()) +
                        UnrecognizedReport(UnrecognizedKeys(), recognized, calledFrom)
      ensures options == old(options) && deprecations == old(deprecations) && recognized == old(recognized)
    {
      var _ := DeprecationWarn(calledFrom);
      ghost var notes := DeprecationNotes(deprecations, SuppliedKeys());
      var _ := UnrecognizedWarn(calledFrom);
      AppendAssoc(old(stderr), notes, UnrecognizedReport(UnrecognizedKeys(), recognized, calledFrom));
      self := this;
    }
  }
}
