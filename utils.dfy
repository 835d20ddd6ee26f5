// Helpers shared by the pipeline, the transformers and the schema.

module Utils {
  import opened Wrappers
  import opened Strings
  import opened Sequences
  import opened ColumnSpecification

  // ---------------------------------------------------------------------------
  // Filtering conditions. A polars predicate is abstracted to the literal `True`
  // or an expression known by its output name.

  datatype Condition = LiteralTrue | Expression(outputName: string)

  /** `default_true_filtering_condition`: a missing condition becomes the literal `True`. */
  function DefaultTrueFilteringCondition(condition: Option<Condition>): Condition
  {
    if condition.None? then LiteralTrue else condition.value
  }

  /** `filtering_condition_to_string`: the suffix a condition adds to a feature name. */
  function FilteringConditionToString(condition: Option<Condition>): (s: string)
    ensures s == "" <==> condition.None? || condition.value.LiteralTrue?
    ensures s != "" ==> s == "_where_" + condition.value.outputName
  {
    if condition.None? || condition.value.LiteralTrue? then "" else "_where_" + condition.value.outputName
  }

  /** Defaulting a missing condition to `True` does not change the name suffix. */
  lemma DefaultTrueKeepsSuffix(condition: Option<Condition>)
    ensures FilteringConditionToString(Some(DefaultTrueFilteringCondition(condition))) == FilteringConditionToString(condition)
  {
  }

  // ---------------------------------------------------------------------------
  // order_preserving_unique

  /** The distinct values of `values`, each at the place it first occurs. */
  function Unique<T(==)>(values: seq<T>): seq<T>
  {
    KeepFirstBy(values, Identity, {})
  }

  /** `order_preserving_unique`: one pass with a `seen` set, appending each new value. */
  method OrderPreservingUnique<T(==)>(values: seq<T>) returns (result: seq<T>)
    ensures result == Unique(values)
  {
    var seen: set<T> := {};
    result := [];
    for i := 0 to |values|
      invariant result == KeepFirstBy(values[..i], Identity, {})
      invariant forall x :: x in seen <==> x in result
    {
      var value := values[i];
      assert DropLast(values[..i + 1]) == values[..i];
      MapIdentity(result);
      if value !in seen {
        seen := seen + {value};
        result := result + [value];
      }
    }
    assert values[..|values|] == values;
  }

  /** The result has no duplicates, loses no value, keeps input order and is a fixed point. */
  lemma UniqueProperties<T>(values: seq<T>)
    ensures Distinct(Unique(values))
    ensures forall i :: 0 <= i < |values| ==> values[i] in Unique(values)
    ensures IsSubsequence(Unique(values), values)
    ensures Unique(Unique(values)) == Unique(values)
  {
    var u := Unique(values);
    MapIdentity(u);
    MapIdentity(values);
    KeepFirstByComplete(values, Identity, {});
    KeepFirstBySubsequence(values, Identity, {});
    KeepFirstByIdentity(u, Identity, {});
  }

  /** A value earlier than another in the input's first occurrences stays earlier in the result. */
  lemma UniquePrefix<T>(values: seq<T>, n: nat)
    requires n <= |values|
    ensures Unique(values[..n]) <= Unique(values)
  {
    KeepFirstByPrefix(values, n, Identity, {});
  }

  // ---------------------------------------------------------------------------
  // Column names

  /** A column given by name or by specification. */
  datatype ColumnRef = ByName(name: string) | BySpec(spec: ColumnSpec)

  function RefName(c: ColumnRef): string
  {
    match c
    case ByName(n) => n
    case BySpec(s) => s.name
  }

  /** `get_names_from_column_specs`: the names, one per column, in order. */
  function GetNamesFromColumnSpecs(columns: seq<ColumnRef>): (names: seq<string>)
    ensures |names| == |columns|
    ensures forall i :: 0 <= i < |columns| ==> names[i] == RefName(columns[i])
  {
    MapSeq(RefName, columns)
  }

  // ---------------------------------------------------------------------------
  // get_valid_param_options

  /**
   * `get_valid_param_options`: the options Python treats as true, in order, and whether
   * every option was. `truthy` is Python's truth value of an option (None, empty lists,
   * empty strings and zero durations are false).
   */
  function GetValidParamOptions<T(==)>(options: seq<T>, truthy: T -> bool): (r: (seq<T>, bool))
    ensures forall i :: 0 <= i < |r.0| ==> truthy(r.0[i])
    ensures r.1 <==> forall i :: 0 <= i < |options| ==> truthy(options[i])
    ensures r.1 ==> r.0 == options
    ensures |r.0| == 0 <==> forall i :: 0 <= i < |options| ==> !truthy(options[i])
  {
    var valid := Filter(options, truthy);
    FilterKeepsAll(options, truthy);
    FilterKeepsNone(options, truthy);
    (valid, |valid| == |options|)
  }

  /** The kept options are exactly the truthy ones among the options. */
  lemma ValidOptionsMembers<T(!new)>(options: seq<T>, truthy: T -> bool)
    ensures var valid := GetValidParamOptions(options, truthy).0;
            forall x :: x in valid <==> x in options && truthy(x)
  {
    FilterMembers(options, truthy);
  }

  // ---------------------------------------------------------------------------
  // format_timedelta

  /** Seconds per year, month, day, hour and minute. */
  datatype TimeUnits = TimeUnits(year: int, month: int, day: int, hour: int, minute: int)

  predicate ValidUnits(u: TimeUnits)
  {
    u.year > 0 && u.month > 0 && u.day > 0 && u.hour > 0 && u.minute > 0
  }

  /** A month of 30 days and a year of 365 days. */
  const StandardUnits := TimeUnits(365 * 86400, 30 * 86400, 86400, 3600, 60)

  datatype Breakdown = Breakdown(years: int, months: int, days: int, hours: int, minutes: int, seconds: int)

  /**
   * The `divmod` cascade: Python's `divmod` by a positive unit is floor division, which is
   * Dafny's `/` and `%`; only the years can be negative.
   */
  function Decompose(total: int, u: TimeUnits): Breakdown
    requires ValidUnits(u)
  {
    var r0 := total % u.year;
    var r1 := r0 % u.month;
    var r2 := r1 % u.day;
    var r3 := r2 % u.hour;
    Breakdown(total / u.year, r0 / u.month, r1 / u.day, r2 / u.hour, r3 / u.minute, r3 % u.minute)
  }

  /** The components add back up to the duration, and each is below the next larger unit. */
  lemma DecomposeReconstructs(total: int, u: TimeUnits)
    requires ValidUnits(u)
    ensures var b := Decompose(total, u);
            && b.years * u.year + b.months * u.month + b.days * u.day + b.hours * u.hour
               + b.minutes * u.minute + b.seconds == total
            && 0 <= b.seconds < u.minute
            && 0 <= b.minutes && b.minutes * u.minute + b.seconds < u.hour
            && 0 <= b.hours && b.hours * u.hour + b.minutes * u.minute + b.seconds < u.day
            && 0 <= b.days && b.days * u.day + b.hours * u.hour + b.minutes * u.minute + b.seconds < u.month
            && 0 <= b.months
            && b.months * u.month + b.days * u.day + b.hours * u.hour + b.minutes * u.minute + b.seconds < u.year
  {
    var r0 := total % u.year;
    var r1 := r0 % u.month;
    var r2 := r1 % u.day;
    var r3 := r2 % u.hour;
    DivMod(total, u.year);
    DivMod(r0, u.month);
    DivMod(r1, u.day);
    DivMod(r2, u.hour);
    DivMod(r3, u.minute);
  }

  /** Floor division by a positive divisor: quotient times divisor plus remainder, remainder in range. */
  lemma DivMod(x: int, d: int)
    requires d > 0
    ensures x == (x / d) * d + x % d && 0 <= x % d < d
    ensures x >= 0 ==> x / d >= 0
  {
  }

  /** `f'{n}{suffix}'` when `n` is non-zero, nothing otherwise. */
  function Part(n: int, suffix: string): string
  {
    if n != 0 then IntToString(n) + suffix else ""
  }

  /** The non-zero components, each followed by its unit letter, in order. */
  function Render(parts: seq<(int, string)>): string
    decreases |parts|
  {
    if |parts| == 0 then "" else Part(parts[0].0, parts[0].1) + Render(parts[1..])
  }

  lemma {:induction false} RenderAppend(parts: seq<(int, string)>, n: int, suffix: string)
    ensures Render(parts + [(n, suffix)]) == Render(parts) + Part(n, suffix)
    decreases |parts|
  {
    if |parts| > 0 {
      assert (parts + [(n, suffix)])[1..] == parts[1..] + [(n, suffix)];
      RenderAppend(parts[1..], n, suffix);
    }
  }

  function TimedeltaParts(b: Breakdown): seq<(int, string)>
  {
    [(b.years, "y"), (b.months, "mo"), (b.days, "d"), (b.hours, "h"), (b.minutes, "m"), (b.seconds, "s")]
  }

  /** The text `format_timedelta` produces for a duration of `total` whole seconds. */
  function TimedeltaText(b: Breakdown): string
  {
    var s := Render(TimedeltaParts(b));
    if s == "" then "0s" else s
  }

  function TimedeltaString(total: int, u: TimeUnits): string
    requires ValidUnits(u)
  {
    TimedeltaText(Decompose(total, u))
  }

  /** One `if n: result += f'{n}{suffix}'` step of `format_timedelta`. */
  method AppendIfNonZero(result: string, n: int, suffix: string) returns (extended: string)
    ensures extended == result + Part(n, suffix)
  {
    extended := result;
    if n != 0 {
      extended := extended + (IntToString(n) + suffix);
    }
  }

  /** `format_timedelta` as written: the cascade, then one append per non-zero component. */
  method FormatTimedelta(totalSeconds: int, u: TimeUnits) returns (result: string)
    requires ValidUnits(u)
    ensures result == TimedeltaString(totalSeconds, u)
  {
    var rest := totalSeconds;
    var years, months, days, hours, minutes;
    years, rest := rest / u.year, rest % u.year;
    months, rest := rest / u.month, rest % u.month;
    days, rest := rest / u.day, rest % u.day;
    hours, rest := rest / u.hour, rest % u.hour;
    minutes, rest := rest / u.minute, rest % u.minute;
    var seconds := rest;
    ghost var b := Breakdown(years, months, days, hours, minutes, seconds);
    assert b == Decompose(totalSeconds, u);
    result := "";
    result := AppendIfNonZero(result, years, "y");
    result := AppendIfNonZero(result, months, "mo");
    result := AppendIfNonZero(result, days, "d");
    result := AppendIfNonZero(result, hours, "h");
    result := AppendIfNonZero(result, minutes, "m");
    result := AppendIfNonZero(result, seconds, "s");
    RenderTimedeltaParts(b);
    if result == "" { result := "0s"; }
  }

  /** The six components rendered one after the other, years first. */
  lemma RenderTimedeltaParts(b: Breakdown)
    ensures Render(TimedeltaParts(b))
            == "" + Part(b.years, "y") + Part(b.months, "mo") + Part(b.days, "d") + Part(b.hours, "h")
               + Part(b.minutes, "m") + Part(b.seconds, "s")
  {
    var parts := TimedeltaParts(b);
    RenderAppend([], b.years, "y");
    RenderAppend(parts[..1], b.months, "mo");
    assert parts[..2] == parts[..1] + [(b.months, "mo")];
    RenderAppend(parts[..2], b.days, "d");
    assert parts[..3] == parts[..2] + [(b.days, "d")];
    RenderAppend(parts[..3], b.hours, "h");
    assert parts[..4] == parts[..3] + [(b.hours, "h")];
    RenderAppend(parts[..4], b.minutes, "m");
    assert parts[..5] == parts[..4] + [(b.minutes, "m")];
    RenderAppend(parts[..5], b.seconds, "s");
    assert parts == parts[..5] + [(b.seconds, "s")];
  }

  lemma {:induction false} NatToStringLeadingDigit(n: nat)
    ensures NatToString(n)[0] == '0' <==> n == 0
    decreases n
  {
    if n >= 10 {
      NatToStringLeadingDigit(n / 10);
      assert NatToString(n)[0] == NatToString(n / 10)[0];
    }
  }

  /** Rendering is empty when every component is zero and otherwise starts with a non-zero digit or a sign. */
  lemma {:induction false} RenderLeading(parts: seq<(int, string)>)
    ensures Render(parts) == "" <==> forall i :: 0 <= i < |parts| ==> parts[i].0 == 0
    ensures Render(parts) != "" ==> Render(parts)[0] != '0'
    decreases |parts|
  {
    if |parts| > 0 {
      var tail := parts[1..];
      RenderLeading(tail);
      var (n, suffix) := parts[0];
      if n > 0 {
        NatToStringLeadingDigit(n);
      }
      assert forall i :: 0 <= i < |tail| ==> tail[i] == parts[i + 1];
    }
  }

  predicate AllZero(b: Breakdown)
  {
    b.years == 0 && b.months == 0 && b.days == 0 && b.hours == 0 && b.minutes == 0 && b.seconds == 0
  }

  lemma TimedeltaTextZero(b: Breakdown)
    ensures TimedeltaText(b) == "0s" <==> AllZero(b)
  {
    var parts := TimedeltaParts(b);
    RenderLeading(parts);
    if !AllZero(b) {
      assert exists i :: 0 <= i < |parts| && parts[i].0 != 0 by {
        if b.years != 0 {
          assert parts[0].0 != 0;
        } else if b.months != 0 {
          assert parts[1].0 != 0;
        } else if b.days != 0 {
          assert parts[2].0 != 0;
        } else if b.hours != 0 {
          assert parts[3].0 != 0;
        } else if b.minutes != 0 {
          assert parts[4].0 != 0;
        } else {
          assert parts[5].0 != 0;
        }
      }
    }
  }

  lemma QuotientZero(a: int, d: int)
    requires d > 0 && a / d == 0
    ensures a % d == a
  {
    assert a == d * (a / d) + a % d;
  }

  lemma DecomposeZero(total: int, u: TimeUnits)
    requires ValidUnits(u)
    ensures AllZero(Decompose(total, u)) <==> total == 0
  {
    var b := Decompose(total, u);
    if AllZero(b) {
      var r0 := total % u.year;
      var r1 := r0 % u.month;
      var r2 := r1 % u.day;
      var r3 := r2 % u.hour;
      QuotientZero(total, u.year);
      QuotientZero(r0, u.month);
      QuotientZero(r1, u.day);
      QuotientZero(r2, u.hour);
      QuotientZero(r3, u.minute);
    } else if total == 0 {
      ZeroDivMod(u.year);
      ZeroDivMod(u.month);
      ZeroDivMod(u.day);
      ZeroDivMod(u.hour);
      ZeroDivMod(u.minute);
    }
  }

  lemma ZeroDivMod(d: int)
    requires d > 0
    ensures 0 / d == 0 && 0 % d == 0
  {
  }

  /** The text is "0s" exactly for a zero duration; a non-zero one never prints as "0s". */
  lemma TimedeltaZero(total: int, u: TimeUnits)
    requires ValidUnits(u)
    ensures TimedeltaString(total, u) == "0s" <==> total == 0
  {
    TimedeltaTextZero(Decompose(total, u));
    DecomposeZero(total, u);
  }

  /** 37 days and 5 hours print as one month, seven days and five hours. */
  lemma TimedeltaMonthExample()
    ensures TimedeltaString(37 * 86400 + 5 * 3600, StandardUnits) == "1mo7d5h"
  {
    assert Decompose(37 * 86400 + 5 * 3600, StandardUnits) == Breakdown(0, 1, 7, 5, 0, 0);
    assert Part(1, "mo") == "1mo";
  }

  /** Two days and one hour print as "2d1h". */
  lemma TimedeltaDayExample()
    ensures TimedeltaString(2 * 86400 + 3600, StandardUnits) == "2d1h"
  {
    assert Decompose(2 * 86400 + 3600, StandardUnits) == Breakdown(0, 0, 2, 1, 0, 0);
  }
}
