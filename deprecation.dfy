/**
 * A deprecated option: the old key, its replacement, an optional removal
 * deadline (a calendar date or a version) and an optional call site, and
 * the warning text built from them.
 */
module Deprecations {
  import opened Wrappers
  import opened Decimal
  import opened Dates
  import opened OptionMaps

  /**
   * The third constructor argument. Without a month it is the version
   * and is interpolated as given (text, or a number's digits); with a
   * month it must be the year.
   */
  datatype VersionOrYear = Text(s: string) | Number(n: int)

  /** Ruby's interpolation "#{v}" of a version. */
  function Render(v: VersionOrYear): string {
    match v
    case Text(s) => s
    case Number(n) => IntToS(n)
  }

  /**
   * The deadline fields: a month makes the third argument the year of a
   * date on the first of that month; no month makes it the version.
   * Date.new raises on a year that is not a number and on a month
   * outside -12..-1 and 1..12.
   */
  function ExtractDateAndVersion(versionOrYear: Option<VersionOrYear>, month: Option<int>)
    : (r: Result<(Option<Date>, Option<VersionOrYear>), DateError>)
    ensures month.None? ==> r == Ok((None, versionOrYear))
    ensures month.Some? ==> (r.Ok? <==> versionOrYear.Some? && versionOrYear.value.Number? &&
                                         FirstOfMonth(versionOrYear.value.n, month.value).Ok?)
    ensures month.Some? && r.Ok? ==>
      r.value == (Some(FirstOfMonth(versionOrYear.value.n, month.value).value), None)
    ensures r.Ok? ==> r.value.0.None? || r.value.1.None?
    ensures r.Ok? && r.value.0.Some? ==> Valid(r.value.0.value) && r.value.0.value.day == 1
  {
    match month
    case None => Ok((None, versionOrYear))
    case Some(m) =>
      match versionOrYear
      case Some(Number(year)) =>
        (match FirstOfMonth(year, m)
         case Ok(d) => Ok((Some(d), None))
         case Err(e) => Err(e))
      case _ => Err(YearNotNumeric)
  }

  /**
   * When the option goes away. A date wins over a version, a version over
   * the open-ended "in a future version".
   */
  function WhenDeprecationOccurs(date: Option<Date>, version: Option<VersionOrYear>): (clause: string)
    requires date.Some? ==> Valid(date.value)
    ensures date.Some? ==> clause == "on or after " + Format(date.value)
    ensures date.None? && version.Some? ==> clause == "on or after version " + Render(version.value)
    ensures date.None? && version.None? ==> clause == "in a future version"
  {
    if date.Some? || version.Some? then
      var after := "on or after ";
      after + (if date.Some? then Format(date.value) else "version " + Render(version.value))
    else
      "in a future version"
  }

  /** Array#join without a separator. */
  function Join(parts: seq<string>): string {
    if parts == [] then "" else Join(parts[..|parts| - 1]) + parts[|parts| - 1]
  }

  /** The three pieces Deprecation#warn joins, and the optional fourth. */
  function OptionPart(option: Key): string {
    "NOTE: option `:" + option + "` is deprecated; use "
  }

  function ReplacementPart(replacement: Key): string {
    "`:" + replacement + "` instead. "
  }

  function RemovalPart(clause: string): string {
    "It will be removed " + clause + "."
  }

  function CalledFromPart(caller: string): string {
    "\nCalled from " + caller + "."
  }

  /** The removal sentence, without call site and without the final newline. */
  function Notice(option: Key, replacement: Key, clause: string): string {
    OptionPart(option) + ReplacementPart(replacement) + RemovalPart(clause)
  }

  /**
   * Deprecation#warn: the removal sentence, then "Called from" the call
   * site when one is set, then a newline.
   */
  function WarnText(option: Key, replacement: Key, date: Option<Date>, version: Option<VersionOrYear>,
                    caller: Option<string>): (s: string)
    requires date.Some? ==> Valid(date.value)
    ensures caller.None? ==>
      s == Notice(option, replacement, WhenDeprecationOccurs(date, version)) + "\n"
    ensures caller.Some? ==>
      s == Notice(option, replacement, WhenDeprecationOccurs(date, version)) + CalledFromPart(caller.value) + "\n"
  {
    var three := [OptionPart(option), ReplacementPart(replacement),
                  RemovalPart(WhenDeprecationOccurs(date, version))];
    assert Join(three) == Notice(option, replacement, WhenDeprecationOccurs(date, version)) by {
      var two := [OptionPart(option), ReplacementPart(replacement)];
      var one := [OptionPart(option)];
      assert three[..2] == two && two[..1] == one && one[..0] == [];
      assert Join(one) == OptionPart(option);
      assert Join(two) == OptionPart(option) + ReplacementPart(replacement);
      assert Join(three) == Join(two) + three[2];
    }
    var message := if caller.Some? then three + [CalledFromPart(caller.value)] else three;
    assert caller.Some? ==> message[..|message| - 1] == three;
    Join(message) + "\n"
  }

  /** The removal sentence spelled out. */
  lemma NoticeTemplate(option: Key, replacement: Key, clause: string)
    ensures Notice(option, replacement, clause) ==
      "NOTE: option `:" + option + "` is deprecated; use `:" + replacement + "` instead. It will be removed " +
      clause + "."
  {
  }

  /** The warning without a call site, spelled out. */
  lemma WarnTemplate(option: Key, replacement: Key, date: Option<Date>, version: Option<VersionOrYear>)
    requires date.Some? ==> Valid(date.value)
    ensures WarnText(option, replacement, date, version, None) ==
      "NOTE: option `:" + option + "` is deprecated; use `:" + replacement + "` instead. It will be removed " +
      WhenDeprecationOccurs(date, version) + ".\n"
  {
    var clause := WhenDeprecationOccurs(date, version);
    var head := "NOTE: option `:" + option + "` is deprecated; use `:" + replacement + "` instead. It will be removed ";
    NoticeTemplate(option, replacement, clause);
    assert head + clause + "." + "\n" == head + clause + ".\n";
  }

  /** The warning with a call site, spelled out. */
  lemma CalledWarnTemplate(option: Key, replacement: Key, date: Option<Date>, version: Option<VersionOrYear>,
                           c: string)
    requires date.Some? ==> Valid(date.value)
    ensures WarnText(option, replacement, date, version, Some(c)) ==
      "NOTE: option `:" + option + "` is deprecated; use `:" + replacement + "` instead. It will be removed " +
      WhenDeprecationOccurs(date, version) + ".\nCalled from " + c + ".\n"
  {
    var clause := WhenDeprecationOccurs(date, version);
    var head := "NOTE: option `:" + option + "` is deprecated; use `:" + replacement + "` instead. It will be removed ";
    NoticeTemplate(option, replacement, clause);
    CalledSuffix(head + clause, c);
  }

  /** The call-site part and the final newline, regrouped after any text x. */
  lemma CalledSuffix(x: string, c: string)
    ensures x + "." + CalledFromPart(c) + "\n" == x + ".\nCalled from " + c + ".\n"
  {
    assert x + "." + CalledFromPart(c) + "\n" == x + (".\nCalled from " + c + ".\n");
  }

  /**
   * Setting a call site inserts exactly "\nCalled from C." before the
   * final newline and changes nothing else.
   */
  lemma CallerInserted(option: Key, replacement: Key, date: Option<Date>, version: Option<VersionOrYear>,
                       c: string)
    requires date.Some? ==> Valid(date.value)
    ensures var plain := WarnText(option, replacement, date, version, None);
            |plain| >= 1 && plain[|plain| - 1] == '\n' &&
            WarnText(option, replacement, date, version, Some(c)) ==
              plain[..|plain| - 1] + "\nCalled from " + c + "." + "\n"
  {
    var n := Notice(option, replacement, WhenDeprecationOccurs(date, version));
    var plain := WarnText(option, replacement, date, version, None);
    assert plain[..|plain| - 1] == n;
    assert n + CalledFromPart(c) + "\n" == n + "\nCalled from " + c + "." + "\n";
  }

  /** The date a warning announces can be read back from its text. */
  lemma DateReadBack(option: Key, replacement: Key, d: Date, version: Option<VersionOrYear>)
    requires Valid(d)
    ensures var s := WarnText(option, replacement, Some(d), version, None);
            |s| >= 12 && s[|s| - 2..] == ".\n" && Parse(s[|s| - 2 - |Format(d)|..|s| - 2]) == Some(d)
  {
    var s := WarnText(option, replacement, Some(d), version, None);
    var f := Format(d);
    var head := OptionPart(option) + ReplacementPart(replacement) + "It will be removed " + "on or after ";
    assert RemovalPart(WhenDeprecationOccurs(Some(d), version)) == "It will be removed " + ("on or after " + f) + ".";
    assert s == head + f + ".\n";
    assert s[|s| - 2 - |f|..|s| - 2] == f;
    FormatRoundTrip(d);
  }

  /** lib/deprecation.rb: the record plus its settable call site. */
  class Deprecation {
    const option: Key
    const replacement: Key
    const date: Option<Date>
    const version: Option<VersionOrYear>
    var caller: Option<string>

    ghost predicate Valid()
    {
      (date.Some? ==> Dates.Valid(date.value)) && (date.None? || version.None?)
    }

    /** Deprecation.new(option, replacement, version_or_year = nil, month = nil). */
    constructor (option: Key, replacement: Key, versionOrYear: Option<VersionOrYear>, month: Option<int>)
      requires ExtractDateAndVersion(versionOrYear, month).Ok?
      ensures this.option == option && this.replacement == replacement
      ensures (date, version) == ExtractDateAndVersion(versionOrYear, month).value
      ensures caller == None
      ensures Valid()
    {
      this.option := option;
      this.replacement := replacement;
      var deadline := ExtractDateAndVersion(versionOrYear, month).value;
      this.date := deadline.0;
      this.version := deadline.1;
      this.caller := None;
    }

    /** attr_writer :caller. */
    method SetCaller(c: Option<string>)
      modifies this`caller
      ensures caller == c
    {
      caller := c;
    }

    /** Deprecation#warn: reads the record, changes nothing. */
    function Warn(): (s: string)
      requires Valid()
      reads this`caller
      ensures s == WarnText(option, replacement, date, version, caller)
      ensures |s| >= 1 && s[|s| - 1] == '\n'
    {
      WarnText(option, replacement, date, version, caller)
    }
  }
}
