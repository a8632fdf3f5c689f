/** The `Parameters:` detail of a logged statement, parsed and printed (fit/src/input.rs). */
module ParameterSpec {
  import opened Common

  const USIZE_MAX: nat := 0xFFFF_FFFF_FFFF_FFFF

  /** `$index = value`; no value is NULL. */
  datatype Binding = Binding(index: nat, value: Option<string>)

  predicate IsDigit(c: char) { '0' <= c <= '9' }

  predicate Starts(s: string, prefix: string) { prefix <= s }

  /** How many digits lead. */
  function Digits(s: string): (n: nat)
    ensures n <= |s| && AllDigits(s[..n]) && (n < |s| ==> !IsDigit(s[n]))
  {
    if s == [] || !IsDigit(s[0]) then 0 else 1 + Digits(s[1..])
  }

  function DigitValue(c: char): nat
    requires IsDigit(c)
  {
    c as int - '0' as int
  }

  predicate AllDigits(s: string) { forall i :: 0 <= i < |s| ==> IsDigit(s[i]) }

  /** The number a digit string denotes. */
  function Value(s: string): nat
    requires AllDigits(s)
  {
    if s == [] then 0 else 10 * Value(s[..|s| - 1]) + DigitValue(s[|s| - 1])
  }

  /** An index that fits the machine word; the empty string is no number. */
  function ParseIndex(s: string): Option<nat>
    requires AllDigits(s)
  {
    if s == [] || Value(s) > USIZE_MAX then None else Some(Value(s))
  }

  /** The value of a quoted literal whose opening quote has been read, and what follows the closing quote. */
  function Unquote(s: string): (r: Option<(string, string)>)
    ensures r.Some? ==> |r.value.1| < |s|
  {
    if s == [] then None
    else if s[0] != '\'' then
      var r := Unquote(s[1..]);
      if r.None? then None else Some(([s[0]] + r.value.0, r.value.1))
    else if |s| > 1 && s[1] == '\'' then
      var r := Unquote(s[2..]);
      if r.None? then None else Some((['\''] + r.value.0, r.value.1))
    else Some(([], s[1..]))
  }

  function Prepend(b: Binding, rest: Option<seq<Binding>>): Option<seq<Binding>> {
    if rest.None? then None else Some([b] + rest.value)
  }

  /** The bindings found in a list, left to right; none at all if a quoted value does not end. */
  function Scan(s: string): Option<seq<Binding>>
    decreases |s|, 0
  {
    if s == [] then Some([])
    else if s[0] != '$' then Scan(s[1..])
    else
      var n := Digits(s[1..]);
      var rest := s[1 + n..];
      var index := ParseIndex(s[1..][..n]);
      if index.None? || !Starts(rest, " = ") then Scan(rest) else ScanValue(index.value, rest[3..])
  }

  /** The same from behind an equals sign. */
  function ScanValue(index: nat, s: string): Option<seq<Binding>>
    decreases |s|, 1
  {
    if Starts(s, "NULL") then Prepend(Binding(index, None), Scan(s[4..]))
    else if Starts(s, "'") then
      var r := Unquote(s[1..]);
      if r.None? then None else Prepend(Binding(index, Some(r.value.0)), Scan(r.value.1))
    else Scan(s)
  }

  function MaxIndex(values: seq<Binding>): nat {
    if values == [] then 0 else Max(MaxIndex(values[..|values| - 1]), values[|values| - 1].index)
  }

  function Blank(size: nat): seq<Option<string>> { seq(size, _ => None) }

  /** The bindings stored in order, 1-based; index zero refuses the list. */
  function Stored(values: seq<Binding>, size: nat): (r: Option<seq<Option<string>>>)
    requires MaxIndex(values) <= size
    ensures r.Some? ==> |r.value| == size
  {
    if values == [] then Some(Blank(size))
    else
      var b := values[|values| - 1];
      var before := Stored(values[..|values| - 1], size);
      if before.None? || b.index == 0 then None else Some(before.value[b.index - 1 := b.value])
  }

  function Parse(s: string): Option<seq<Option<string>>> {
    var values := Scan(s);
    if values.None? then None else Stored(values.value, MaxIndex(values.value))
  }

  // The server's rendering of a parameter list.

  function Decimal(n: nat): string {
    (if n < 10 then "" else Decimal(n / 10)) + [(n % 10 + '0' as int) as char]
  }

  function Escape(v: string): string {
    if v == [] then [] else (if v[0] == '\'' then "''" else [v[0]]) + Escape(v[1..])
  }

  function PrintValue(v: Option<string>): string {
    match v case None => "NULL" case Some(t) => "'" + Escape(t) + "'"
  }

  function PrintItem(k: nat, v: Option<string>): string { "$" + Decimal(k) + " = " + PrintValue(v) }

  /** The items from position `k` on, each but the first preceded by a comma. */
  function PrintFrom(values: seq<Option<string>>, k: nat): string
    requires k <= |values|
    decreases |values| - k
  {
    if k == |values| then ""
    else (if k == 0 then "" else ", ") + PrintItem(k + 1, values[k]) + PrintFrom(values, k + 1)
  }

  function Print(values: seq<Option<string>>): string { PrintFrom(values, 0) }

  function Numbered(values: seq<Option<string>>, k: nat): seq<Binding>
    requires k <= |values|
    decreases |values| - k
  {
    if k == |values| then [] else [Binding(k + 1, values[k])] + Numbered(values, k + 1)
  }

  lemma {:induction false} DecimalDenotes(n: nat)
    ensures Decimal(n) != [] && AllDigits(Decimal(n)) && Value(Decimal(n)) == n
  {
    var last := (n % 10 + '0' as int) as char;
    if n >= 10 {
      DecimalDenotes(n / 10);
      assert Decimal(n)[..|Decimal(n)| - 1] == Decimal(n / 10);
    } else {
      assert Decimal(n) == [last];
    }
  }

  /** Reading stops where the digits do. */
  lemma {:induction false} DigitsOf(d: string, t: string)
    requires AllDigits(d) && (t != [] ==> !IsDigit(t[0]))
    ensures Digits(d + t) == |d|
  {
    if d == [] {
      assert d + t == t;
    } else {
      assert (d + t)[1..] == d[1..] + t;
      DigitsOf(d[1..], t);
    }
  }

  /** An escaped value, closed and not followed by another quote, is read back with what follows it. */
  lemma {:induction false} UnquoteEscape(v: string, t: string)
    requires t != [] ==> t[0] != '\''
    ensures Unquote(Escape(v) + "'" + t) == Some((v, t))
  {
    var s := Escape(v) + "'" + t;
    if v == [] {
      assert s == "'" + t && s[1..] == t;
    } else {
      UnquoteEscape(v[1..], t);
      var rest := Escape(v[1..]) + "'" + t;
      if v[0] == '\'' {
        assert s == "''" + rest && s[2..] == rest;
      } else {
        assert s == [v[0]] + rest && s[1..] == rest;
      }
      assert v == [v[0]] + v[1..];
    }
  }

  /** A `$`, digits `d` and an equals sign are read as an index. */
  lemma ScanDollar(s: string, d: string, rest: string)
    requires s != [] && s[0] == '$' && s[1..] == d + rest && AllDigits(d) && Digits(s[1..]) == |d|
    requires ParseIndex(d).Some? && Starts(rest, " = ")
    ensures Scan(s) == ScanValue(ParseIndex(d).value, rest[3..])
  {
    assert s[1..][..|d|] == d && s[1 + |d|..] == rest;
  }

  lemma SplitItem(d: string, tail: string, s: string, rest: string)
    requires s == "$" + d + " = " + tail && rest == " = " + tail
    ensures s != [] && s[0] == '$' && s[1..] == d + rest && Starts(rest, " = ") && rest[3..] == tail && rest[0] == ' '
  {
  }

  lemma ScanIndex(k: nat, tail: string, s: string)
    requires k <= USIZE_MAX && s == "$" + Decimal(k) + " = " + tail
    ensures Scan(s) == ScanValue(k, tail)
  {
    DecimalDenotes(k);
    SplitItem(Decimal(k), tail, s, " = " + tail);
    DigitsOf(Decimal(k), " = " + tail);
    ScanDollar(s, Decimal(k), " = " + tail);
  }

  lemma ScanNull(k: nat, t: string, s: string)
    requires s == "NULL" + t
    ensures ScanValue(k, s) == Prepend(Binding(k, None), Scan(t))
  {
    assert s[4..] == t;
  }

  lemma ScanQuoted(k: nat, v: string, t: string, inner: string, s: string)
    requires inner == Escape(v) + "'" + t && |s| > 0 && s[0] == '\'' && s[1..] == inner && (t != [] ==> t[0] == ',')
    ensures ScanValue(k, s) == Prepend(Binding(k, Some(v)), Scan(t))
  {
    UnquoteEscape(v, t);
    assert "NULL"[0] == 'N';
  }

  /** A printed value is read back as the binding's value. */
  lemma ScanPrintedValue(k: nat, v: Option<string>, t: string)
    requires t != [] ==> t[0] == ','
    ensures ScanValue(k, PrintValue(v) + t) == Prepend(Binding(k, v), Scan(t))
  {
    match v
    case None => ScanNull(k, t, PrintValue(v) + t);
    case Some(w) =>
      assert (PrintValue(v) + t)[1..] == Escape(w) + "'" + t;
      ScanQuoted(k, w, t, Escape(w) + "'" + t, PrintValue(v) + t);
  }

  lemma ItemText(k: nat, v: Option<string>, t: string)
    ensures PrintItem(k, v) + t == "$" + Decimal(k) + " = " + (PrintValue(v) + t)
  {
  }

  lemma ScanItem(k: nat, v: Option<string>, t: string)
    requires k <= USIZE_MAX && (t != [] ==> t[0] == ',')
    ensures Scan(PrintItem(k, v) + t) == Prepend(Binding(k, v), Scan(t))
  {
    ScanPrintedValue(k, v, t);
    ItemText(k, v, t);
    ScanIndex(k, PrintValue(v) + t, PrintItem(k, v) + t);
  }

  lemma ScanJoined(first: bool, item: string, s: string)
    requires s == if first then item else ", " + item
    ensures Scan(s) == Scan(item)
  {
    if !first {
      assert s[1..] == " " + item && (" " + item)[1..] == item;
    }
  }

  lemma PrintStep(values: seq<Option<string>>, k: nat, item: string, t: string)
    requires k < |values| && t == PrintFrom(values, k + 1) && item == PrintItem(k + 1, values[k]) + t
    ensures PrintFrom(values, k) == if k == 0 then item else ", " + item
    ensures t != [] ==> t[0] == ','
  {
  }

  lemma ScanStep(values: seq<Option<string>>, k: nat)
    requires k < |values| <= USIZE_MAX
    ensures Scan(PrintFrom(values, k)) == Prepend(Binding(k + 1, values[k]), Scan(PrintFrom(values, k + 1)))
  {
    var t := PrintFrom(values, k + 1);
    var item := PrintItem(k + 1, values[k]) + t;
    PrintStep(values, k, item, t);
    ScanItem(k + 1, values[k], t);
    ScanJoined(k == 0, item, PrintFrom(values, k));
  }

  lemma NumberedStep(values: seq<Option<string>>, k: nat)
    requires k < |values|
    ensures Prepend(Binding(k + 1, values[k]), Some(Numbered(values, k + 1))) == Some(Numbered(values, k))
  {
  }

  lemma {:induction false} ScanPrinted(values: seq<Option<string>>, k: nat, s: string)
    requires k <= |values| <= USIZE_MAX && s == PrintFrom(values, k)
    ensures Scan(s) == Some(Numbered(values, k))
    decreases |values| - k
  {
    if k < |values| {
      ScanPrinted(values, k + 1, PrintFrom(values, k + 1));
      NumberedStep(values, k);
      ScanStep(values, k);
    } else {
      assert s == "";
    }
  }

  lemma {:induction false} NumberedShape(values: seq<Option<string>>, k: nat)
    requires k <= |values|
    ensures |Numbered(values, k)| == |values| - k
    ensures forall i :: 0 <= i < |values| - k ==> Numbered(values, k)[i] == Binding(k + i + 1, values[k + i])
    decreases |values| - k
  {
    if k < |values| {
      NumberedShape(values, k + 1);
      var rest := Numbered(values, k + 1);
      assert Numbered(values, k) == [Binding(k + 1, values[k])] + rest;
      forall i | 0 <= i < |values| - k ensures Numbered(values, k)[i] == Binding(k + i + 1, values[k + i]) {
        if i > 0 { assert Numbered(values, k)[i] == rest[i - 1]; }
      }
    }
  }

  lemma {:induction false} StoredNumbered(values: seq<Option<string>>, bs: seq<Binding>, n: nat)
    requires n <= |values| && |bs| == n && forall i :: 0 <= i < n ==> bs[i] == Binding(i + 1, values[i])
    ensures MaxIndex(bs) == n
    ensures Stored(bs, |values|) == Some(values[..n] + Blank(|values| - n))
    decreases n
  {
    if n > 0 {
      StoredNumbered(values, bs[..n - 1], n - 1);
      var before := values[..n - 1] + Blank(|values| - (n - 1));
      assert before[n - 1 := values[n - 1]] == values[..n] + Blank(|values| - n);
    } else {
      assert values[..0] + Blank(|values|) == Blank(|values|);
    }
  }

  /** The value bound last to an index; unbound is NULL. */
  function LastBound(values: seq<Binding>, index: nat): Option<string> {
    if values == [] then None
    else
      var b := values[|values| - 1];
      if b.index == index then b.value else LastBound(values[..|values| - 1], index)
  }

  predicate HasZero(values: seq<Binding>) { exists i :: 0 <= i < |values| && values[i].index == 0 }

  /** The list is refused if and only if some index is zero; else every position holds what was bound to it last. */
  lemma {:induction false} StoredExact(values: seq<Binding>, size: nat)
    requires MaxIndex(values) <= size
    ensures Stored(values, size).None? <==> HasZero(values)
    ensures !HasZero(values) ==>
      forall i :: 0 <= i < size ==> Stored(values, size).value[i] == LastBound(values, i + 1)
  {
    if values != [] {
      var n := |values| - 1;
      StoredExact(values[..n], size);
      assert values[n].index == 0 ==> HasZero(values);
      assert HasZero(values) <==> HasZero(values[..n]) || values[n].index == 0;
    }
  }

  lemma {:induction false} MaxIndexExact(values: seq<Binding>)
    ensures forall i :: 0 <= i < |values| ==> values[i].index <= MaxIndex(values)
    ensures values != [] ==> exists i :: 0 <= i < |values| && values[i].index == MaxIndex(values)
  {
    if values != [] {
      var n := |values| - 1;
      var init := values[..n];
      MaxIndexExact(init);
      assert MaxIndex(values) == Max(MaxIndex(init), values[n].index);
      if values[n].index < MaxIndex(values) {
        assert MaxIndex(values) == MaxIndex(init) > 0;
        assert init != [];
        var i :| 0 <= i < |init| && init[i].index == MaxIndex(init);
        assert values[i] == init[i];
      }
    }
  }

  /** A list is refused if and only if a quote stays open or an index is zero; what it denotes is as long as its largest
      index, each position holding the value bound to it last, NULL if none is. */
  lemma ParseExact(s: string)
    ensures Parse(s).None? <==> Scan(s).None? || HasZero(Scan(s).value)
    ensures Parse(s).Some? ==>
      var values, r := Scan(s).value, Parse(s).value;
      && (forall i :: 0 <= i < |values| ==> 1 <= values[i].index <= |r|)
      && (r != [] ==> exists i :: 0 <= i < |values| && values[i].index == |r|)
      && forall i :: 0 <= i < |r| ==> r[i] == LastBound(values, i + 1)
  {
    if Scan(s).Some? {
      StoredExact(Scan(s).value, MaxIndex(Scan(s).value));
      MaxIndexExact(Scan(s).value);
    }
  }

  lemma {:induction false} UnquoteOpen(v: string)
    ensures Unquote(Escape(v)).None?
  {
    var s := Escape(v);
    if v != [] {
      UnquoteOpen(v[1..]);
      if v[0] == '\'' {
        assert s == "''" + Escape(v[1..]) && s[2..] == Escape(v[1..]);
      } else {
        assert s == [v[0]] + Escape(v[1..]) && s[1..] == Escape(v[1..]);
      }
    }
  }

  /** A value whose quote is never closed refuses the list. */
  lemma OpenQuoteRefused(k: nat, v: string)
    requires k <= USIZE_MAX
    ensures Parse("$" + Decimal(k) + " = " + ("'" + Escape(v))).None?
  {
    var tail := "'" + Escape(v);
    ScanIndex(k, tail, "$" + Decimal(k) + " = " + tail);
    UnquoteOpen(v);
    assert tail[0] == '\'' && "NULL"[0] == 'N' && tail[1..] == Escape(v);
  }

  /** Every list of values, whatever the values contain, is read back from its printed form. */
  lemma RoundTrip(values: seq<Option<string>>)
    requires |values| <= USIZE_MAX
    ensures Parse(Print(values)) == Some(values)
  {
    ScanPrinted(values, 0, Print(values));
    NumberedShape(values, 0);
    StoredNumbered(values, Numbered(values, 0), |values|);
    assert values[..|values|] + Blank(0) == values;
  }
}

module ParameterParser {
  import opened Common
  import opened ParameterSpec

  /** A value read so far, continued by what is left to read. */
  ghost function Continue(value: string, rest: Option<(string, string)>): Option<(string, string)> {
    if rest.None? then None else Some((value + rest.value.0, rest.value.1))
  }

  lemma ContinueStep(value: string, c: char, rest: Option<(string, string)>)
    ensures Continue(value, Continue([c], rest)) == Continue(value + [c], rest)
  {
    if rest.Some? {
      assert value + ([c] + rest.value.0) == value + [c] + rest.value.0;
    }
  }

  /** The leading quoted value of `s` and the length consumed, quotes included. */
  method QuotedValueParse(s: string) returns (r: Option<(string, nat)>)
    ensures r.None? <==> !Starts(s, "'") || Unquote(s[1..]).None?
    ensures r.Some? ==> 2 <= r.value.1 <= |s| && Unquote(s[1..]) == Some((r.value.0, s[r.value.1..]))
  {
    if |s| == 0 || s[0] != '\'' {
      return None;
    }
    var inner, value, i := s[1..], "", 0;
    assert inner[0..] == inner;
    assert Unquote(inner).Some? ==> "" + Unquote(inner).value.0 == Unquote(inner).value.0;
    while i < |inner|
      invariant 0 <= i <= |inner| && Unquote(inner) == Continue(value, Unquote(inner[i..]))
      decreases |inner| - i
    {
      ghost var here := inner[i..];
      if inner[i] == '\'' {
        if i + 1 < |inner| && inner[i + 1] == '\'' {
          assert here[2..] == inner[i + 2..];
          ContinueStep(value, '\'', Unquote(inner[i + 2..]));
          value, i := value + ['\''], i + 2;
          continue;
        }
        assert here[1..] == inner[i + 1..] == s[i + 2..];
        assert value + [] == value;
        return Some((value, i + 2));
      }
      assert here[1..] == inner[i + 1..];
      ContinueStep(value, inner[i], Unquote(inner[i + 1..]));
      value, i := value + [inner[i]], i + 1;
    }
    r := None;
  }

  /** The end of the digits from `start` on. */
  method DigitsEnd(list: string, start: nat) returns (i: nat)
    requires start <= |list|
    ensures start <= i <= |list| && i - start == Digits(list[start..])
  {
    i := start;
    while i < |list| && IsDigit(list[i])
      invariant start <= i <= |list|
      invariant Digits(list[start..]) == i - start + Digits(list[i..])
      decreases |list| - i
    {
      assert list[i..][1..] == list[i + 1..];
      i := i + 1;
    }
  }

  /** What a `$` starts: nothing, a binding, or a quoted value that does not end. */
  datatype Item = Nothing(next: nat) | Bound(binding: Binding, next: nat) | Unterminated

  ghost predicate ReadsAs(list: string, start: nat, item: Item)
    requires start <= |list|
  {
    match item
    case Nothing(next) => start < next <= |list| && Scan(list[start..]) == Scan(list[next..])
    case Bound(b, next) => start < next <= |list| && Scan(list[start..]) == Prepend(b, Scan(list[next..]))
    case Unterminated => Scan(list[start..]).None?
  }

  /** The value behind an equals sign at `i`. */
  method ReadValue(list: string, index: nat, i: nat) returns (item: Item)
    requires i <= |list|
    ensures match item
      case Nothing(next) => next == i && ScanValue(index, list[i..]) == Scan(list[i..])
      case Bound(b, next) => i < next <= |list| && ScanValue(index, list[i..]) == Prepend(b, Scan(list[next..]))
      case Unterminated => ScanValue(index, list[i..]).None?
  {
    var after := list[i..];
    if Starts(after, "NULL") {
      assert after[4..] == list[i + 4..];
      item := Bound(Binding(index, None), i + 4);
    } else if Starts(after, "'") {
      var quoted := QuotedValueParse(after);
      if quoted.None? {
        return Unterminated;
      }
      var (value, consumed) := quoted.value;
      assert after[consumed..] == list[i + consumed..];
      item := Bound(Binding(index, Some(value)), i + consumed);
    } else {
      item := Nothing(i);
    }
  }

  method ReadItem(list: string, start: nat) returns (item: Item)
    requires start < |list| && list[start] == '$'
    ensures ReadsAs(list, start, item)
  {
    ghost var here := list[start..];
    var indexStart := start + 1;
    assert here[1..] == list[indexStart..];
    var i := DigitsEnd(list, indexStart);
    ghost var n := i - indexStart;
    assert list[indexStart..i] == here[1..][..n] && list[i..] == here[1 + n..];
    var index := ParseIndex(list[indexStart..i]);
    if index.None? || !Starts(list[i..], " = ") {
      return Nothing(i);
    }
    assert list[i..][3..] == list[i + 3..];
    item := ReadValue(list, index.value, i + 3);
  }

  /** The text of the bindings still to be found is a suffix of the list. */
  ghost predicate Remaining(list: string, values: seq<Binding>, i: nat)
    requires i <= |list|
  {
    match Scan(list[i..])
    case None => Scan(list).None?
    case Some(rest) => Scan(list) == Some(values + rest)
  }

  lemma Skipped(list: string, values: seq<Binding>, i: nat, j: nat)
    requires i <= j <= |list| && Remaining(list, values, i) && Scan(list[i..]) == Scan(list[j..])
    ensures Remaining(list, values, j)
  {
  }

  lemma Found(list: string, values: seq<Binding>, b: Binding, i: nat, j: nat)
    requires i <= j <= |list| && Remaining(list, values, i) && Scan(list[i..]) == Prepend(b, Scan(list[j..]))
    ensures Remaining(list, values + [b], j)
  {
    if Scan(list[j..]).Some? {
      var rest := Scan(list[j..]).value;
      assert values + ([b] + rest) == values + [b] + rest;
    }
  }

  method FindBindings(list: string) returns (r: Option<seq<Binding>>)
    ensures r == Scan(list)
  {
    var values: seq<Binding>, i := [], 0;
    assert list[0..] == list;
    assert Scan(list).Some? ==> values + Scan(list).value == Scan(list).value;
    while i < |list|
      invariant 0 <= i <= |list| && Remaining(list, values, i)
      decreases |list| - i
    {
      if list[i] != '$' {
        assert list[i..][1..] == list[i + 1..];
        Skipped(list, values, i, i + 1);
        i := i + 1;
        continue;
      }
      var item := ReadItem(list, i);
      match item {
        case Nothing(next) =>
          Skipped(list, values, i, next);
          i := next;
        case Bound(b, next) =>
          Found(list, values, b, i, next);
          values, i := values + [b], next;
        case Unterminated =>
          return None;
      }
    }
    assert list[i..] == [];
    assert values + [] == values;
    r := Some(values);
  }

  method ParameterListParse(list: string) returns (r: Option<seq<Option<string>>>)
    ensures r == Parse(list)
  {
    var found := FindBindings(list);
    if found.None? {
      return None;
    }
    var values, max := found.value, 0;
    for i := 0 to |values|
      invariant max == MaxIndex(values[..i])
    {
      assert values[..i + 1][..i] == values[..i];
      max := Max(max, values[i].index);
    }
    assert values[..|values|] == values;
    var out := Blank(max);
    MaxIndexPrefix(values, 0);
    for i := 0 to |values|
      invariant |out| == max && MaxIndex(values[..i]) <= max
      invariant Stored(values[..i], max) == Some(out)
    {
      MaxIndexPrefix(values, i + 1);
      assert values[..i + 1][..i] == values[..i];
      if values[i].index == 0 {
        StoredStaysRefused(values, i + 1, max);
        return None;
      }
      out := out[values[i].index - 1 := values[i].value];
    }
    r := Some(out);
  }

  lemma {:induction false} MaxIndexPrefix(values: seq<Binding>, n: nat)
    requires n <= |values|
    ensures MaxIndex(values[..n]) <= MaxIndex(values)
    decreases |values|
  {
    if n < |values| {
      var init := values[..|values| - 1];
      MaxIndexPrefix(init, n);
      assert init[..n] == values[..n];
    } else {
      assert values[..n] == values;
    }
  }

  /** A refused prefix refuses the list. */
  lemma {:induction false} StoredStaysRefused(values: seq<Binding>, n: nat, size: nat)
    requires n <= |values| && MaxIndex(values) <= size && MaxIndex(values[..n]) <= size
    requires Stored(values[..n], size).None?
    ensures Stored(values, size).None?
    decreases |values|
  {
    if n < |values| {
      var init := values[..|values| - 1];
      assert init[..n] == values[..n];
      StoredStaysRefused(init, n, size);
    } else {
      assert values[..n] == values;
    }
  }
}
