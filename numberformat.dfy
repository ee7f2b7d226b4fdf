/** `formatNumber`, shared word for word by the buyer and the seller page:
    keep only the decimal digits of the input, then insert a comma wherever
    the regular expression `\B(?=(\d{3})+(?!\d))` matches, that is, at every
    position inside the digit run from which a positive multiple of three
    digits runs to the end. */
module NumberFormat {
  import opened Seqs
  import opened JsText

  /** The comma insertion on a run of digits `s`; `lead` tells whether some
      digit of the run precedes `s` (otherwise the position before `s[0]` is
      a word boundary and `\B` fails there). A comma goes before `s[0]` when
      `|s|`, the number of digits from there to the end, is a multiple of 3. */
  function CommaScan(s: string, lead: bool): string
  {
    if s == [] then []
    else Mark(|s|, lead) + [s[0]] + CommaScan(s[1..], true)
  }

  /** What goes before a digit from which `n` digits run to the end. */
  function Mark(n: nat, lead: bool): string {
    if lead && n % 3 == 0 then "," else ""
  }

  /** The comma insertion on a whole run of digits: it groups them by
      threes from the right. */
  function InsertCommas(d: string): (r: string)
    ensures r == GroupThousands(d)
  {
    InsertCommasGroups(d);
    CommaScan(d, false)
  }

  /** `formatNumber(value)` of both pages: keep the digits, then insert the
      commas. The result is the digits grouped by threes, and removing its
      commas gives the digits back. */
  function FormatNumber(v: string): (r: string)
    ensures r == GroupThousands(Digits(v))
    ensures StripCommas(r) == Digits(v)
  {
    StripCommasScan(Digits(v), false);
    InsertCommas(Digits(v))
  }

  /** The reference grouping: split the digits into threes from the right,
      the leftmost group keeping what remains. */
  function GroupThousands(d: string): string
    decreases |d|
  {
    if |d| <= 3 then d
    else GroupThousands(d[..|d| - 3]) + "," + d[|d| - 3..]
  }

  /** The shape of a thousands-grouped number, stated position by position:
      every character is a digit or a comma; a comma stands exactly where the
      distance to the end is a multiple of 4 (so every group after the first
      has exactly three digits), and the length is not a multiple of 4 (so
      the first group has one to three digits). */
  ghost predicate ThousandsGrouped(r: string) {
    && (r == [] || |r| % 4 != 0)
    && (forall k :: 0 <= k < |r| ==> (r[k] == ',' <==> (|r| - k) % 4 == 0))
    && (forall k :: 0 <= k < |r| ==> r[k] == ',' || IsDigit(r[k]))
  }

  /** The first group is the first `|r| % 4` characters: one to three
      digits, followed by a comma unless it is the whole text. */
  lemma GroupedFirstGroup(r: string)
    requires ThousandsGrouped(r) && r != []
    ensures 1 <= |r| % 4 <= 3
    ensures forall j :: 0 <= j < |r| % 4 ==> IsDigit(r[j])
    ensures |r| % 4 < |r| ==> r[|r| % 4] == ','
  {
    var f := |r| % 4;
    forall j | 0 <= j < f
      ensures IsDigit(r[j])
    {
      assert (|r| - j) % 4 != 0;
    }
    if f < |r| {
      assert (|r| - f) % 4 == 0;
    }
  }

  /** After a comma come exactly three digits, then a comma or the end. */
  lemma GroupedNextGroup(r: string, k: nat)
    requires ThousandsGrouped(r)
    requires k < |r| && r[k] == ','
    ensures k + 4 <= |r|
    ensures forall j :: k < j < k + 4 ==> IsDigit(r[j])
    ensures k + 4 == |r| || r[k + 4] == ','
  {
    assert (|r| - k) % 4 == 0;
    forall j | k < j < k + 4
      ensures IsDigit(r[j])
    {
      assert 0 < j - k < 4;
      assert (|r| - j) % 4 != 0;
    }
    if k + 4 < |r| {
      assert (|r| - (k + 4)) % 4 == 0;
    }
  }

  lemma ShiftByThrees(x: nat, y: nat)
    requires y % 3 == 0
    ensures (x + y) % 3 == x % 3
  {
    assert y == 3 * (y / 3);
  }

  lemma {:induction false} CommaScanSplit(a: string, b: string, lead: bool)
    requires |b| % 3 == 0
    ensures CommaScan(a + b, lead) == CommaScan(a, lead) + CommaScan(b, lead || a != [])
  {
    if a == [] {
      assert a + b == b;
    } else {
      var s := a + b;
      assert s[0] == a[0] && s[1..] == a[1..] + b;
      ShiftByThrees(|a|, |b|);
      assert Mark(|s|, lead) == Mark(|a|, lead);
      CommaScanSplit(a[1..], b, true);
    }
  }

  lemma CommaScanShort(s: string)
    requires |s| < 3
    ensures CommaScan(s, true) == s
  {
    if s != [] {
      CommaScanShort(s[1..]);
    }
  }

  /** The regular expression's comma placement is the grouping by threes
      from the right. */
  lemma {:induction false} InsertCommasGroups(d: string)
    ensures CommaScan(d, false) == GroupThousands(d)
    decreases |d|
  {
    if |d| == 0 {
    } else if |d| <= 3 {
      CommaScanShort(d[1..]);
    } else {
      var pre, last := d[..|d| - 3], d[|d| - 3..];
      assert d == pre + last;
      CommaScanSplit(pre, last, false);
      CommaScanShort(last[1..]);
      assert CommaScan(last, true) == "," + last;
      InsertCommasGroups(pre);
    }
  }

  /** One more group of three digits after a comma keeps the shape. */
  lemma GroupedAppend(g: string, last: string)
    requires ThousandsGrouped(g) && g != []
    requires |last| == 3 && AllDigits(last)
    ensures ThousandsGrouped(g + "," + last)
  {
    var r := g + "," + last;
    assert |r| == |g| + 4;
    forall k | 0 <= k < |r|
      ensures (r[k] == ',' <==> (|r| - k) % 4 == 0)
      ensures r[k] == ',' || IsDigit(r[k])
    {
      if k < |g| {
        assert r[k] == g[k];
        assert |r| - k == (|g| - k) + 4;
      } else if k == |g| {
        assert r[k] == ',';
      } else {
        assert r[k] == last[k - |g| - 1];
      }
    }
  }

  lemma {:induction false} GroupThousandsShape(d: string)
    requires AllDigits(d)
    ensures ThousandsGrouped(GroupThousands(d))
    decreases |d|
  {
    if |d| > 3 {
      var pre, last := d[..|d| - 3], d[|d| - 3..];
      GroupThousandsShape(pre);
      assert GroupThousands(pre) != [];
      GroupedAppend(GroupThousands(pre), last);
    }
  }

  lemma DropFirstDigit(s: string)
    requires AllDigits(s) && s != []
    ensures IsDigit(s[0]) && AllDigits(s[1..])
  {
    forall i | 0 <= i < |s| - 1
      ensures IsDigit(s[1..][i])
    {
      assert s[1..][i] == s[i + 1];
    }
  }

  /** A possible comma and then a digit, both removed or kept as the
      comma removal and the digit filter do. */
  lemma FilterMarkDigit(m: string, x: char, rest: string)
    requires m == "" || m == ","
    requires IsDigit(x)
    ensures StripCommas(m + ([x] + rest)) == [x] + StripCommas(rest)
    ensures Digits(m + ([x] + rest)) == [x] + Digits(rest)
  {
    FilterCons(x, rest, NotComma);
    FilterCons(x, rest, IsDigit);
    if m == "," {
      assert m + ([x] + rest) == [','] + ([x] + rest);
      FilterCons(',', [x] + rest, NotComma);
      FilterCons(',', [x] + rest, IsDigit);
    } else {
      assert m + ([x] + rest) == [x] + rest;
    }
  }

  /** Removing the commas from the comma insertion gives the digits back. */
  lemma {:induction false} StripCommasScan(s: string, lead: bool)
    requires AllDigits(s)
    ensures StripCommas(CommaScan(s, lead)) == s
  {
    if s != [] {
      var rest := CommaScan(s[1..], true);
      assert StripCommas(rest) == s[1..] by {
        DropFirstDigit(s);
        StripCommasScan(s[1..], true);
      }
      assert CommaScan(s, lead) == Mark(|s|, lead) + ([s[0]] + rest);
      assert StripCommas(Mark(|s|, lead) + ([s[0]] + rest)) == [s[0]] + StripCommas(rest) by {
        FilterMarkDigit(Mark(|s|, lead), s[0], rest);
      }
      assert s == [s[0]] + s[1..];
    }
  }

  /** Keeping only the digits of the comma insertion gives the digits back. */
  lemma {:induction false} DigitsScan(s: string, lead: bool)
    requires AllDigits(s)
    ensures Digits(CommaScan(s, lead)) == s
  {
    if s != [] {
      var rest := CommaScan(s[1..], true);
      assert Digits(rest) == s[1..] by {
        DropFirstDigit(s);
        DigitsScan(s[1..], true);
      }
      assert CommaScan(s, lead) == Mark(|s|, lead) + ([s[0]] + rest);
      assert Digits(Mark(|s|, lead) + ([s[0]] + rest)) == [s[0]] + Digits(rest) by {
        FilterMarkDigit(Mark(|s|, lead), s[0], rest);
      }
      assert s == [s[0]] + s[1..];
    }
  }

  /** The output of `formatNumber` is the typed digits grouped by threes
      from the right: only digits and commas, no comma first or last, a first
      group of one to three digits and groups of exactly three after it. */
  lemma FormatNumberShape(v: string)
    ensures ThousandsGrouped(FormatNumber(v))
    ensures forall k :: 0 <= k < |FormatNumber(v)| ==> FormatNumber(v)[k] == ',' || IsDigit(FormatNumber(v)[k])
    ensures FormatNumber(v) != [] ==> FormatNumber(v)[0] != ',' && FormatNumber(v)[|FormatNumber(v)| - 1] != ','
  {
    GroupThousandsShape(Digits(v));
    var r := FormatNumber(v);
    if r != [] {
      assert (|r| - 0) % 4 != 0;
      assert (|r| - (|r| - 1)) % 4 != 0;
    }
  }

  /** Formatting an already formatted value changes nothing, so a field that
      is re-formatted on every keystroke stays stable. */
  lemma FormatNumberIdempotent(v: string)
    ensures FormatNumber(FormatNumber(v)) == FormatNumber(v)
  {
    DigitsScan(Digits(v), false);
  }

  /** Text that `formatNumber` leaves as it is: what a price field holds
      between keystrokes. */
  predicate Formatted(s: string) {
    FormatNumber(s) == s
  }

  /** A formatted field is thousands-grouped, and removing its commas, as
      the forms do before saving, leaves a plain digit string. */
  lemma FormattedFieldSavesDigits(s: string)
    requires Formatted(s)
    ensures ThousandsGrouped(s)
    ensures AllDigits(StripCommas(s))
  {
    FormatNumberShape(s);
  }

  /** A value typed into a formatted price field, once its commas are
      removed for saving, reads back through `parseInt` as the number its
      digits spell; with no digit typed it reads as `NaN`. */
  lemma FormattedValueParses(v: string)
    ensures Digits(v) != [] ==> ParseInt(StripCommas(FormatNumber(v))) == Some(DecimalValue(Digits(v)))
    ensures Digits(v) == [] ==> ParseInt(StripCommas(FormatNumber(v))) == None
  {
    if Digits(v) != [] {
      ParseIntDigits(Digits(v));
    } else {
      assert TrimStart([]) == [];
      assert Unprefixed([]) == [];
    }
  }
}
