/**
 * The repository's test cases, replayed on the model: each member's
 * contract is the exact outcome the test expects (or, where the test
 * and the code disagree, the code's outcome, as noted).
 */
module Scenarios {
  import opened Wrappers
  import opened Dates
  import opened OptionMaps
  import opened Deprecations
  import opened Optionings

  /** Deprecation.new :to_hash, :to, 2015, 3 has the date 2015-03-01 and no version. */
  lemma DateDeadline()
    ensures ExtractDateAndVersion(Some(Number(2015)), Some(3)) == Ok((Some(Date(2015, 3, 1)), None))
  {
  }

  /** Deprecation.new :to_hash, :to, "v2.0.0" has that version and no date. */
  lemma VersionDeadline()
    ensures ExtractDateAndVersion(Some(Text("v2.0.0")), None) == Ok((None, Some(Text("v2.0.0"))))
  {
  }

  /** Deprecation.new(:to_hash, :to).warn, with the newline the tests' expected string leaves out. */
  method WarnPlain() returns (s: string)
    ensures s == "NOTE: option `:" + "to_hash" + "` is deprecated; use `:" + "to" + "` instead. It will be removed " +
                 "in a future version" + ".\n"
  {
    var d := new Deprecation("to_hash", "to", None, None);
    s := d.Warn();
    WarnTemplate(d.option, d.replacement, d.date, d.version);
  }

  /** Deprecation.new(:to_hash, :to, "v2.0.0").warn. */
  method WarnVersioned() returns (s: string)
    ensures s == "NOTE: option `:" + "to_hash" + "` is deprecated; use `:" + "to" + "` instead. It will be removed " +
                 "on or after version v2.0.0" + ".\n"
  {
    var d := new Deprecation("to_hash", "to", Some(Text("v2.0.0")), None);
    s := d.Warn();
    WarnTemplate(d.option, d.replacement, d.date, d.version);
    VersionClause();
  }

  /** Deprecation.new(:to_hash, :to, 2015, 3).warn. */
  method WarnDated() returns (s: string)
    ensures s == "NOTE: option `:" + "to_hash" + "` is deprecated; use `:" + "to" + "` instead. It will be removed " +
                 "on or after 2015-03-01" + ".\n"
  {
    var d := new Deprecation("to_hash", "to", Some(Number(2015)), Some(3));
    DateDeadline();
    s := d.Warn();
    WarnTemplate(d.option, d.replacement, d.date, d.version);
    DateClause();
  }

  lemma VersionClause()
    ensures WhenDeprecationOccurs(None, Some(Text("v2.0.0"))) == "on or after version v2.0.0"
  {
  }

  lemma DateClause()
    ensures WhenDeprecationOccurs(Some(Date(2015, 3, 1)), None) == "on or after 2015-03-01"
  {
    assert Format(Date(2015, 3, 1)) == "2015-03-01";
  }

  /** The versioned warning once a caller is set. */
  method WarnCalled() returns (s: string)
    ensures s == "NOTE: option `:" + "to_hash" + "` is deprecated; use `:" + "to" + "` instead. It will be removed " +
                 "on or after version v2.0.0" + ".\nCalled from " + "/x/p/t/o/omg_lol_bbq.rb:42:in `hasherize'" + ".\n"
  {
    var d := new Deprecation("to_hash", "to", Some(Text("v2.0.0")), None);
    d.SetCaller(Some("/x/p/t/o/omg_lol_bbq.rb:42:in `hasherize'"));
    s := d.Warn();
    CalledWarnTemplate(d.option, d.replacement, d.date, d.version, d.caller.value);
    VersionClause();
  }

  /** Optioning.new :path, :commit, to_hash: f: raw, values and on(:to_hash). */
  method SplitCall(f: string) returns (raw: seq<Arg<string>>, values: seq<Arg<string>>, toHash: Option<string>)
    ensures raw == [Pos("path"), Pos("commit"), Opts([("to_hash", f)])]
    ensures values == [Pos("path"), Pos("commit")]
    ensures toHash == Some(f)
  {
    var m: Mapping<string> := [("to_hash", f)];
    var o := new Optioning<string>([Pos("path"), Pos("commit"), Opts(m)]);
    assert o.options == Some(m) && o.values == [Pos("path"), Pos("commit")] && o.deprecations == [];
    raw := o.Raw();
    values := o.Values();
    assert ResolveOptions(o.options, Rules(o.deprecations)) == Some(m);
    assert Lookup(m, "to_hash") == Some(f);
    toHash := o.On("to_hash");
  }

  /** deprecate(:to_hash, :to) returns the instance, and on(:to) then gives the to_hash value. */
  method DeprecateRenames(f: string) returns (same: bool, to: Option<string>, toHash: Option<string>)
    ensures same
    ensures to == Some(f) && toHash == None
  {
    var m: Mapping<string> := [("to_hash", f)];
    var o := new Optioning<string>([Pos("path"), Pos("commit"), Opts(m)]);
    assert o.options == Some(m) && o.deprecations == [];
    assert ExtractDateAndVersion(None, None).Ok?;
    var self := o.Deprecate("to_hash", "to", None, None);
    same := self == Ok(o);
    assert |o.deprecations| == 1;
    assert Rules(o.deprecations) == [("to_hash", "to")];
    ToHashRenamed(f);
    to := o.On("to");
    toHash := o.On("to_hash");
  }

  /** The rule to_hash → to moves the value once; resolving again changes nothing. */
  lemma ToHashRenamed(f: string)
    ensures var renamed: Mapping<string> := [("to", f)];
            ResolveAll([("to_hash", f)], [("to_hash", "to")]) == renamed &&
            ResolveAll(renamed, [("to_hash", "to")]) == renamed &&
            Lookup(renamed, "to") == Some(f) && Lookup(renamed, "to_hash") == None
  {
    var m: Mapping<string> := [("to_hash", f)];
    var renamed: Mapping<string> := [("to", f)];
    var rules := [("to_hash", "to")];
    assert Remove(m, "to_hash") == [];
    assert Put([], "to", f) == renamed;
    assert Resolve(m, rules[0]) == renamed;
    assert rules[1..] == [];
    assert renamed[1..] == [];
    assert Lookup(renamed, "to_hash") == None;
    assert Resolve(renamed, rules[0]) == renamed;
  }

  /**
   * deprecate with a deadline Date.new rejects (month 13, or a version
   * string with a month) registers nothing and reports the error.
   */
  method DeprecateBadDeadline() returns (month13: Result<Optioning<string>, DateError>,
                                         textYear: Result<Optioning<string>, DateError>,
                                         rules: nat, keys: seq<Key>)
    ensures month13 == Err(InvalidDate) && textYear == Err(YearNotNumeric)
    ensures rules == 0 && keys == []
  {
    var o := new Optioning<string>([Pos("path"), Opts([("to_hash", "x")])]);
    month13 := o.Deprecate("to_hash", "to", Some(Number(2015)), Some(13));
    textYear := o.Deprecate("to_hash", "to", Some(Text("v2.0.0")), Some(3));
    rules := |o.deprecations|;
    keys := o.recognized;
  }

  /** A supplied list whose only unknown key comes last. */
  lemma OnlyLastUnrecognized(known: seq<Key>, u: Key, recognized: seq<Key>, deprecated: seq<Key>)
    requires forall i :: 0 <= i < |known| ==> known[i] in recognized || known[i] in deprecated
    requires u !in recognized && u !in deprecated
    ensures Unrecognized(known + [u], recognized, deprecated) == [u]
  {
    UnrecognizedConcat(known, [u], recognized, deprecated);
    AllKnown(known, recognized, deprecated);
    assert Unrecognized([u], recognized, deprecated) == [u] + Unrecognized([], recognized, deprecated);
  }

  /** The report on a single unknown key. */
  lemma ReportOne(u: Key, recognized: seq<Key>)
    ensures UnrecognizedReport([u], recognized, []) ==
      "NOTE: unrecognized option `:" + u + "` used.\n" + "You should use only the following: " + QuotedList(recognized)
  {
    assert [u][..0] == [];
    assert NoteLines([u]) == NoteLine(u);
    var text := NoteLine(u) + Summary(recognized);
    assert UnrecognizedReport([u], recognized, []) == text + "";
    assert text + "" == text;
    AppendAssoc(NoteLine(u), "You should use only the following: ", QuotedList(recognized));
  }

  /** recognize :from, :to; unrecognized_warn reports :no_one_knows. */
  lemma ReportsUnrecognized()
    ensures var recognized := AddKeys([], ["from", "to"]);
      UnrecognizedReport(Unrecognized(["from", "to", "no_one_knows"], recognized, []), recognized, []) ==
      "NOTE: unrecognized option `:" + "no_one_knows" + "` used.\n" + "You should use only the following: " + "`:from`, `:to`"
  {
    assert AddKeys([], ["from", "to"]) == ["from", "to"];
    assert ["from", "to", "no_one_knows"] == ["from", "to"] + ["no_one_knows"];
    OnlyLastUnrecognized(["from", "to"], "no_one_knows", ["from", "to"], []);
    ReportOne("no_one_knows", ["from", "to"]);
    FromToQuoted();
  }

  lemma FromToQuoted()
    ensures QuotedList(["from", "to"]) == "`:from`, `:to`"
  {
    assert ["from", "to"][..1] == ["from"];
  }

  /** deprecate :omg, :lol and recognize :from, :to: the supplied :omg is not reported. */
  lemma DeprecatedNotReported()
    ensures var recognized := AddKeys(AddKeys([], ["lol"]), ["from", "to"]);
      UnrecognizedReport(Unrecognized(["from", "to", "omg", "no_one_knows"], recognized, ["omg"]), recognized, []) ==
      "NOTE: unrecognized option `:" + "no_one_knows" + "` used.\n" + "You should use only the following: " + "`:lol`, `:from`, `:to`"
  {
    LolFromTo();
    LolFromToValuesOmg();
    ReportOne("no_one_knows", ["lol", "from", "to"]);
  }

  /** The same rule, with the replacement :lol supplied instead: it is not reported either. */
  lemma ReplacementNotReported()
    ensures var recognized := AddKeys(AddKeys([], ["lol"]), ["from", "to"]);
      UnrecognizedReport(Unrecognized(["from", "to", "lol", "no_one_knows"], recognized, ["omg"]), recognized, []) ==
      "NOTE: unrecognized option `:" + "no_one_knows" + "` used.\n" + "You should use only the following: " + "`:lol`, `:from`, `:to`"
  {
    LolFromTo();
    LolFromToValuesLol();
    ReportOne("no_one_knows", ["lol", "from", "to"]);
  }

  lemma LolFromToValuesOmg()
    ensures Unrecognized(["from", "to", "omg", "no_one_knows"], ["lol", "from", "to"], ["omg"]) == ["no_one_knows"]
  {
    assert ["from", "to", "omg", "no_one_knows"] == ["from", "to", "omg"] + ["no_one_knows"];
    OnlyLastUnrecognized(["from", "to", "omg"], "no_one_knows", ["lol", "from", "to"], ["omg"]);
  }

  lemma LolFromToValuesLol()
    ensures Unrecognized(["from", "to", "lol", "no_one_knows"], ["lol", "from", "to"], ["omg"]) == ["no_one_knows"]
  {
    assert ["from", "to", "lol", "no_one_knows"] == ["from", "to", "lol"] + ["no_one_knows"];
    OnlyLastUnrecognized(["from", "to", "lol"], "no_one_knows", ["lol", "from", "to"], ["omg"]);
  }

  /** The recognized list of the two tests above and its summary. */
  lemma LolFromTo()
    ensures AddKeys(AddKeys([], ["lol"]), ["from", "to"]) == ["lol", "from", "to"]
    ensures QuotedList(["lol", "from", "to"]) == "`:lol`, `:from`, `:to`"
  {
    LolFromToKeys();
    LolFromToQuoted();
  }

  lemma LolFromToKeys()
    ensures AddKeys(AddKeys([], ["lol"]), ["from", "to"]) == ["lol", "from", "to"]
  {
  }

  lemma LolFromToQuoted()
    ensures QuotedList(["lol", "from", "to"]) == "`:lol`, `:from`, `:to`"
  {
    var ks := ["lol", "from", "to"];
    assert ks[..2] == ["lol", "from"] && ks[..2][..1] == ["lol"];
    assert QuotedList(["lol"]) == "`:lol`";
    assert QuotedList(["lol", "from"]) == "`:lol`, `:from`";
  }

  /** Every supplied key recognized: unrecognized_warn writes nothing at all, not even the summary. */
  method SilentWhenAllRecognized() returns (written: string)
    ensures written == ""
  {
    var o := new Optioning<string>([Opts([("omg_lol_bbq", "recognized!")])]);
    var _ := o.Recognize(["omg_lol_bbq"]);
    assert o.UnrecognizedKeys() == [];
    var _ := o.UnrecognizedWarn([]);
    written := o.stderr;
  }

  lemma ProcessRecognized()
    ensures AddKeys(AddKeys(AddKeys([], ["new"]), ["from"]), ["omg"]) == ["new", "from", "omg"]
  {
  }

  lemma ProcessUnrecognized()
    ensures Unrecognized(["old", "from", "omg", "wtf"], ["new", "from", "omg"], ["old", "from_hash"]) == ["wtf"]
  {
  }

  /** The text process writes for the call below, assembled from its pieces. */
  lemma ProcessText()
    ensures WarnText("old", "new", None, None, None) + UnrecognizedReport(["wtf"], ["new", "from", "omg"], []) ==
      ("NOTE: option `:" + "old" + "` is deprecated; use `:" + "new" + "` instead. It will be removed " +
       "in a future version" + ".\n") +
      ("NOTE: unrecognized option `:" + "wtf" + "` used.\n" +
       "You should use only the following: " + "`:new`, `:from`, `:omg`")
  {
    WarnTemplate("old", "new", None, None);
    ReportOne("wtf", ["new", "from", "omg"]);
    NewFromOmgQuoted();
  }

  lemma NewFromOmgQuoted()
    ensures QuotedList(["new", "from", "omg"]) == "`:new`, `:from`, `:omg`"
  {
    var ks := ["new", "from", "omg"];
    assert ks[..2] == ["new", "from"] && ks[..2][..1] == ["new"];
    assert QuotedList(["new"]) == "`:new`";
    assert QuotedList(["new", "from"]) == "`:new`, `:from`";
  }

  const ProcessOptions: Mapping<string> := [("old", "OH!"), ("from", "lambda"), ("omg", "O YEAH!"), ("wtf", "?")]
  const ProcessArgs: seq<Arg<string>> := [Pos("path"), Pos("commit"), Opts(ProcessOptions)]

  lemma ProcessSupplied()
    ensures Split(ProcessArgs).1 == Some(ProcessOptions)
    ensures Keys(ProcessOptions) == ["old", "from", "omg", "wtf"]
  {
  }

  /** The instance of ProcessReport with its rules registered and :omg recognized. */
  method ProcessSetup() returns (o: Optioning<string>, d0: Deprecation, d1: Deprecation)
    ensures fresh(o) && fresh(d0) && fresh(d1) && o.Valid()
    ensures o.args == ProcessArgs && o.stderr == "" && o.deprecations == [d0, d1]
    ensures o.recognized == ["new", "from", "omg"]
    ensures d0.option == "old" && d0.replacement == "new" && d0.date == None && d0.version == None && d0.caller == None
    ensures d1.option == "from_hash"
  {
    o := new Optioning<string>(ProcessArgs);
    var _ := o.Deprecate("old", "new", None, None);
    d0 := o.deprecations[0];
    assert o.deprecations == [d0];
    var _ := o.Deprecate("from_hash", "from", None, None);
    d1 := o.deprecations[1];
    assert o.deprecations == [d0, d1];
    ProcessRecognized();
    var _ := o.Recognize(["omg"]);
  }

  /**
   * process on `:path, :commit, old:, from:, omg:, wtf:` after deprecating
   * :old and :from_hash and recognizing :omg: the note for :old, then the
   * report on :wtf; :from_hash was never used, and :from counts as
   * recognized because it replaces it.
   */
  method ProcessReport() returns (written: string)
    ensures written ==
      ("NOTE: option `:" + "old" + "` is deprecated; use `:" + "new" + "` instead. It will be removed " +
       "in a future version" + ".\n") +
      ("NOTE: unrecognized option `:" + "wtf" + "` used.\n" +
       "You should use only the following: " + "`:new`, `:from`, `:omg`")
  {
    var o, d0, d1 := ProcessSetup();
    ProcessKeys(o, d0, d1);
    written := ProcessRun(o, d0, d1);
  }

  lemma OnlyOldSupplied()
    ensures "old" in ["old", "from", "omg", "wtf"] && "from_hash" !in ["old", "from", "omg", "wtf"]
  {
  }

  /** The supplied and the unrecognized keys of the instance ProcessSetup builds. */
  lemma ProcessKeys(o: Optioning<string>, d0: Deprecation, d1: Deprecation)
    requires o.args == ProcessArgs && o.deprecations == [d0, d1] && o.recognized == ["new", "from", "omg"]
    requires d0.option == "old" && d1.option == "from_hash"
    ensures o.SuppliedKeys() == ["old", "from", "omg", "wtf"]
    ensures o.UnrecognizedKeys() == ["wtf"]
  {
    ProcessSupplied();
    assert DeprecatedKeys([d0, d1]) == ["old", "from_hash"];
    ProcessUnrecognized();
  }

  /** process([]) on that instance, given only what its output depends on. */
  method ProcessRun(o: Optioning<string>, d0: Deprecation, d1: Deprecation) returns (written: string)
    requires o.Valid() && o.deprecations == [d0, d1] && o.stderr == ""
    requires o.recognized == ["new", "from", "omg"]
    requires o.SuppliedKeys() == ["old", "from", "omg", "wtf"] && o.UnrecognizedKeys() == ["wtf"]
    requires d0.option == "old" && d0.replacement == "new" && d0.date == None && d0.version == None && d0.caller == None
    requires d1.option == "from_hash"
    modifies o, d0, d1
    ensures written ==
      ("NOTE: option `:" + "old" + "` is deprecated; use `:" + "new" + "` instead. It will be removed " +
       "in a future version" + ".\n") +
      ("NOTE: unrecognized option `:" + "wtf" + "` used.\n" +
       "You should use only the following: " + "`:new`, `:from`, `:omg`")
  {
    ghost var supplied := o.SuppliedKeys();
    var _ := o.Process([]);
    assert d0.caller == None by {
      assert o.deprecations[0] == d0;
    }
    written := o.stderr;
    ghost var notes := DeprecationNotes([d0, d1], supplied);
    assert notes == WarnText("old", "new", None, None, None) by {
      OnlyOldSupplied();
      DeprecationNotesFirstOfTwo(d0, d1, supplied);
    }
    ProcessWritten(written, notes, UnrecognizedReport(["wtf"], ["new", "from", "omg"], []));
  }

  lemma ProcessWritten(written: string, notes: string, report: string)
    requires notes == WarnText("old", "new", None, None, None)
    requires report == UnrecognizedReport(["wtf"], ["new", "from", "omg"], [])
    requires written == "" + notes + report
    ensures written ==
      ("NOTE: option `:" + "old" + "` is deprecated; use `:" + "new" + "` instead. It will be removed " +
       "in a future version" + ".\n") +
      ("NOTE: unrecognized option `:" + "wtf" + "` used.\n" +
       "You should use only the following: " + "`:new`, `:from`, `:omg`")
  {
    assert "" + notes == notes;
    ProcessText();
  }
}
