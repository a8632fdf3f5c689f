/** What the log reader makes of a statement, its parameters and its further lines (fit/src/input.rs). */
module LogStatements {
  import opened Common
  import opened ParameterSpec
  import opened LogReader

  // Dropped parameter lists, over whole logs.

  /** The open statements whose last detail, with `messages` to come, does not parse. */
  ghost function Failing(messages: seq<Message>): (nat, Pending) -> nat {
    (pid: nat, p: Pending) => if Unparsed(LastDetail(messages, pid, p.detail)) then 1 else 0
  }

  /** The statements of a log whose last detail does not parse. */
  function Malformed(messages: seq<Message>): nat {
    if messages == [] then 0
    else
      var m, rest := messages[0], messages[1..];
      (if m.Logged? && Unparsed(LastDetail(rest, m.pid, None)) then 1 else 0) + Malformed(rest)
  }

  lemma {:induction false} FlushAllDropped(s: State)
    ensures FlushAll(s).dropped == s.dropped + Sum(s.pending, Failing([]))
    decreases |s.pending|
  {
    if s.pending != map[] {
      var pid := Least(s.pending);
      SumRemove(s.pending, Failing([]), pid);
      Finished(s.pending[pid]);
      FlushAllDropped(Flushed(s, pid));
    }
  }

  /** A message says nothing about the other backends' open statements. */
  lemma OthersFail(pending: map<nat, Pending>, messages: seq<Message>, pid: nat)
    requires messages != [] && pid !in pending && (messages[0].Unrecognized? || messages[0].pid == pid)
    ensures Sum(pending, Failing(messages)) == Sum(pending, Failing(messages[1..]))
  {
    forall q | q in pending ensures Failing(messages)(q, pending[q]) == Failing(messages[1..])(q, pending[q]) {
      assert !From(messages[0], q);
    }
    SumSame(pending, Failing(messages), Failing(messages[1..]));
  }

  /** What is dropped, will be for the open statements, and will be for those to come. */
  ghost function Loss(s: State, messages: seq<Message>): nat {
    s.dropped + Sum(s.pending, Failing(messages)) + Malformed(messages)
  }

  function Share(s: State, messages: seq<Message>, pid: nat): nat {
    if pid in s.pending && Unparsed(LastDetail(messages, pid, s.pending[pid].detail)) then 1 else 0
  }

  lemma OpenLoss(s: State, messages: seq<Message>, pid: nat)
    requires messages != [] && (messages[0].Unrecognized? || messages[0].pid == pid)
    ensures Loss(s, messages) == s.dropped + Sum(s.pending - {pid}, Failing(messages[1..])) + Malformed(messages)
      + Share(s, messages, pid)
  {
    SumSplit(s.pending, Failing(messages), pid);
    OthersFail(s.pending - {pid}, messages, pid);
  }

  /** The message's own backend: what it settles is dropped now, what it opens may be later. */
  lemma OwnLoss(s: State, messages: seq<Message>, pid: nat)
    requires messages != [] && (messages[0].Unrecognized? || messages[0].pid == pid)
    ensures var t := Apply(s, messages[0]);
      && t.pending - {pid} == s.pending - {pid}
      && t.dropped + Share(t, messages[1..], pid) + Malformed(messages[1..])
         == s.dropped + Share(s, messages, pid) + Malformed(messages)
  {
    assert Apply(s, messages[0]).pending - {pid} == s.pending - {pid};
    if pid in s.pending { Finished(s.pending[pid]); }
  }

  lemma ApplyKeepsLoss(s: State, messages: seq<Message>)
    requires messages != []
    ensures Loss(Apply(s, messages[0]), messages[1..]) == Loss(s, messages)
  {
    var m, rest := messages[0], messages[1..];
    var pid: nat := if m.Unrecognized? then 0 else m.pid;
    var t := Apply(s, m);
    OpenLoss(s, messages, pid);
    SumSplit(t.pending, Failing(rest), pid);
    OwnLoss(s, messages, pid);
  }

  lemma {:induction false} ReadLoss(s: State, messages: seq<Message>)
    ensures Read(s, messages).dropped == Loss(s, messages)
    decreases |messages|
  {
    if messages == [] {
      FlushAllDropped(s);
    } else {
      ApplyKeepsLoss(s, messages);
      ReadLoss(Apply(s, messages[0]), messages[1..]);
    }
  }

  /** Over a whole log, the details dropped are the statements whose last detail is a list that does not parse. */
  lemma DroppedExact(f: Format, lines: seq<string>)
    requires Attached(f, Initial, Unrecognized, lines)
    ensures Run(f, Initial, lines).dropped == Malformed(Messages(f, Unrecognized, lines))
  {
    ReadsMessages(f, Initial, Unrecognized, lines);
    ReadLoss(Initial, Messages(f, Unrecognized, lines));
    assert Sum(Initial.pending, Failing(Messages(f, Unrecognized, lines))) == 0;
  }

  // A statement and the lines after it, in terms of how the lines split.

  predicate Logs(f: Format, line: string, pid: nat, sql: string, duration: Option<real>) {
    !IsContinuation(line) &&
    match f.split(line)
    case None => false
    case Some((q, severity, rest)) => q == pid && severity == "LOG" && f.statement(rest) == Some((sql, duration))
  }

  predicate Details(f: Format, line: string, pid: nat, text: string) {
    !IsContinuation(line) &&
    match f.split(line)
    case None => false
    case Some((q, severity, rest)) => q == pid && severity == "DETAIL" && TrimStart(rest) == text
  }

  /** Any other message of the backend. */
  predicate Ends(f: Format, line: string, pid: nat) {
    !IsContinuation(line) &&
    match f.split(line)
    case None => false
    case Some((q, severity, rest)) =>
      q == pid && if severity == "LOG" then f.statement(rest).None? else severity != "DETAIL"
  }

  predicate Foreign(f: Format, lines: seq<string>, pid: nat) {
    forall i :: 0 <= i < |lines| ==>
      !IsContinuation(lines[i]) && (f.split(lines[i]).None? || f.split(lines[i]).value.0 != pid)
  }

  /** The reader between two lines. */
  function Through(f: Format, s: State, lines: seq<string>): State
    decreases |lines|
  {
    if lines == [] then s else Through(f, Step(f, s, lines[0]), lines[1..])
  }

  lemma {:induction false} RunConcat(f: Format, s: State, a: seq<string>, b: seq<string>)
    ensures Run(f, s, a + b) == Run(f, Through(f, s, a), b)
    decreases |a|
  {
    if a == [] {
      assert a + b == b;
    } else {
      assert (a + b)[1..] == a[1..] + b;
      RunConcat(f, Step(f, s, a[0]), a[1..], b);
    }
  }

  lemma ThroughOne(f: Format, s: State, line: string)
    ensures Through(f, s, [line]) == Step(f, s, line)
  {
    assert [line][1..] == [];
  }

  lemma {:induction false} ThroughConcat(f: Format, s: State, a: seq<string>, b: seq<string>)
    ensures Through(f, s, a + b) == Through(f, Through(f, s, a), b)
    decreases |a|
  {
    if a == [] {
      assert a + b == b;
    } else {
      assert (a + b)[1..] == a[1..] + b;
      ThroughConcat(f, Step(f, s, a[0]), a[1..], b);
    }
  }

  /** Other backends' lines leave a backend's open statement and output alone. */
  lemma {:induction false} ForeignKeeps(f: Format, s: State, t: State, lines: seq<string>, pid: nat)
    requires Agree(s, t, pid) && Foreign(f, lines, pid)
    ensures Agree(Through(f, s, lines), t, pid)
    decreases |lines|
  {
    if lines != [] {
      HeaderAgrees(s, t, Classify(f, lines[0]), pid);
      ForeignKeeps(f, Step(f, s, lines[0]), t, lines[1..], pid);
    }
  }

  /** What is output for `pid`, and how much is dropped, once the lines are read. */
  lemma RunEnd(f: Format, s: State, pid: nat)
    requires Keyed(s) && pid in s.pending && Only(s.out, pid) == []
    ensures Only(Run(f, s, []).statements, pid)
         == [Statement(s.pending[pid].sql, Listed(s.pending[pid].detail), s.pending[pid].duration, pid)]
    ensures Run(f, s, []).dropped == s.dropped + Sum(s.pending - {pid}, Failing([])) + Share(s, [], pid)
  {
    FlushAllOnly(s, pid);
    Finished(s.pending[pid]);
    FlushAllDropped(s);
    SumSplit(s.pending, Failing([]), pid);
  }

  /** The reader behind a statement line and any lines of other backends: the statement is open. */
  lemma Opened(f: Format, a: string, mid: seq<string>, pid: nat, sql: string, duration: Option<real>)
    requires Logs(f, a, pid, sql, duration) && Foreign(f, mid, pid)
    ensures var s := Through(f, Initial, [a] + mid);
      Keyed(s) && pid in s.pending && s.pending[pid] == Pending(sql, duration, None, pid) && Only(s.out, pid) == []
  {
    var s := Step(f, Initial, a);
    assert Classify(f, a) == Logged(pid, sql, duration);
    ThroughOne(f, Initial, a);
    ThroughConcat(f, Initial, [a], mid);
    ForeignKeeps(f, s, s, mid, pid);
  }

  /** A parameter list behind the open statement: its values if it parses, none and one more dropped if not. */
  lemma DetailLine(f: Format, s: State, d: string, pid: nat, list: string)
    requires Details(f, d, pid, "Parameters: " + list)
    requires Keyed(s) && pid in s.pending && s.pending[pid].detail.None? && Only(s.out, pid) == []
    ensures var r, values, open := Run(f, s, [d]), Parse(list), s.pending[pid];
      && Only(r.statements, pid)
         == [Statement(open.sql, if values.None? then [] else values.value, open.duration, pid)]
      && r.dropped == Run(f, s, []).dropped + if values.None? then 1 else 0
  {
    var text := "Parameters: " + list;
    assert text[0] == 'P' && TrimStart(text) == text && text[12..] == list;
    assert Classify(f, d) == Parameters(pid, text);
    var t := Step(f, s, d);
    assert t.pending - {pid} == s.pending - {pid};
    RunCons(f, s, d, []);
    assert [d] + [] == [d];
    RunEnd(f, s, pid);
    RunEnd(f, t, pid);
  }

  /** A statement, any lines of other backends, and the statement's parameter list: the statement is output with the
      values of the list if it parses, and with none, one more detail dropped, if it does not. */
  lemma DetailRead(
    f: Format, a: string, mid: seq<string>, d: string, pid: nat, sql: string, duration: Option<real>, list: string)
    requires Logs(f, a, pid, sql, duration) && Foreign(f, mid, pid) && Details(f, d, pid, "Parameters: " + list)
    ensures var r, values := Run(f, Initial, [a] + mid + [d]), Parse(list);
      && Only(r.statements, pid) == [Statement(sql, if values.None? then [] else values.value, duration, pid)]
      && r.dropped == Run(f, Initial, [a] + mid).dropped + if values.None? then 1 else 0
  {
    Opened(f, a, mid, pid, sql, duration);
    DetailLine(f, Through(f, Initial, [a] + mid), d, pid, list);
    RunConcat(f, Initial, [a] + mid, [d]);
    RunConcat(f, Initial, [a] + mid, []);
    assert [a] + mid + [] == [a] + mid;
  }

  /** So a list the server printed gives every value back, and nothing is dropped for it. */
  lemma ParametersRead(
    f: Format, a: string, mid: seq<string>, d: string, pid: nat, sql: string, duration: Option<real>,
    values: seq<Option<string>>)
    requires |values| <= USIZE_MAX
    requires Logs(f, a, pid, sql, duration) && Foreign(f, mid, pid)
    requires Details(f, d, pid, "Parameters: " + Print(values))
    ensures Only(Run(f, Initial, [a] + mid + [d]).statements, pid) == [Statement(sql, values, duration, pid)]
    ensures Run(f, Initial, [a] + mid + [d]).dropped == Run(f, Initial, [a] + mid).dropped
  {
    RoundTrip(values);
    DetailRead(f, a, mid, d, pid, sql, duration, Print(values));
  }

  lemma Closing(s: State, pid: nat)
    requires Keyed(s) && pid in s.pending && s.pending[pid].detail.None? && Only(s.out, pid) == []
    ensures var t, open := Apply(s, Other(pid)), s.pending[pid];
      pid !in t.pending && Only(FlushAll(t).out, pid) == [Statement(open.sql, [], open.duration, pid)]
  {
    FlushedOnly(s, pid, pid);
    FlushAllOnly(Apply(s, Other(pid)), pid);
    Finished(s.pending[pid]);
  }

  /** A detail of a backend with no open statement changes nothing. */
  lemma DetailOfNone(f: Format, t: State, d: string, pid: nat, text: string)
    requires Details(f, d, pid, text) && pid !in t.pending
    ensures Step(f, t, d) == t
  {
    assert Classify(f, d).Parameters? || Classify(f, d).OtherDetail?;
  }

  lemma EndLine(f: Format, s: State, o: string, d: string, pid: nat, text: string)
    requires Ends(f, o, pid) && Details(f, d, pid, text)
    requires Keyed(s) && pid in s.pending && s.pending[pid].detail.None? && Only(s.out, pid) == []
    ensures var t, open := Step(f, s, o), s.pending[pid];
      && Step(f, t, d) == t
      && Only(Run(f, t, []).statements, pid) == [Statement(open.sql, [], open.duration, pid)]
  {
    assert Classify(f, o) == Other(pid);
    Closing(s, pid);
    DetailOfNone(f, Step(f, s, o), d, pid, text);
  }

  /** Any other message of the backend ends its statement: a parameter list after it is nobody's. */
  lemma DetailAfterEnd(
    f: Format, a: string, mid: seq<string>, o: string, d: string, pid: nat, sql: string, duration: Option<real>,
    text: string)
    requires Logs(f, a, pid, sql, duration) && Foreign(f, mid, pid) && Ends(f, o, pid) && Details(f, d, pid, text)
    ensures Run(f, Initial, [a] + mid + [o, d]) == Run(f, Initial, [a] + mid + [o])
    ensures Only(Run(f, Initial, [a] + mid + [o]).statements, pid) == [Statement(sql, [], duration, pid)]
  {
    Opened(f, a, mid, pid, sql, duration);
    var s := Through(f, Initial, [a] + mid);
    EndLine(f, s, o, d, pid, text);
    RunConcat(f, Initial, [a] + mid, [o]);
    RunConcat(f, Initial, [a] + mid, [o, d]);
    RunCons(f, s, o, []);
    RunCons(f, s, o, [d]);
    RunCons(f, Step(f, s, o), d, []);
    assert [o] + [] == [o] && [o] + [d] == [o, d] && [d] + [] == [d];
  }

  // Text of several lines. The server starts each further line with a tab.

  function Tabbed(texts: seq<string>): seq<string> {
    seq(|texts|, i requires 0 <= i < |texts| => "\t" + texts[i])
  }

  /** Each text on a line of its own. */
  function Broken(texts: seq<string>): string {
    if texts == [] then "" else "\n" + texts[0] + Broken(texts[1..])
  }

  predicate Untabbed(texts: seq<string>) { forall i :: 0 <= i < |texts| ==> !Starts(texts[i], "\t") }

  /** The open statement of `pid` with another text. */
  function Retexted(s: State, pid: nat, sql: string): State
    requires pid in s.pending
  {
    s.(pending := s.pending[pid := s.pending[pid].(sql := sql)])
  }

  lemma LineStep(f: Format, s: State, text: string, pid: nat)
    requires !Starts(text, "\t") && s.last == Some(OfStatement(pid)) && pid in s.pending
    ensures Step(f, s, "\t" + text) == Retexted(s, pid, s.pending[pid].sql + "\n" + text)
  {
    assert ("\t" + text)[1..] == text && TrimTabs("\t" + text) == text;
  }

  lemma RetextedTwice(s: State, pid: nat, one: string, other: string)
    requires pid in s.pending
    ensures Retexted(Retexted(s, pid, one), pid, other) == Retexted(s, pid, other)
  {
  }

  lemma BrokenStep(sql: string, texts: seq<string>)
    requires texts != []
    ensures sql + "\n" + texts[0] + Broken(texts[1..]) == sql + Broken(texts)
  {
    Glue(sql, "\n", texts[0], Broken(texts[1..]));
  }

  lemma Glue(a: string, b: string, c: string, d: string)
    ensures a + b + c + d == a + (b + c + d)
  {
  }

  lemma {:induction false} ThroughLines(f: Format, s: State, texts: seq<string>, pid: nat, sql: string)
    requires Untabbed(texts) && s.last == Some(OfStatement(pid)) && pid in s.pending
    requires sql == s.pending[pid].sql + Broken(texts)
    ensures Through(f, s, Tabbed(texts)) == Retexted(s, pid, sql)
    decreases |texts|
  {
    var before := s.pending[pid].sql;
    if texts == [] {
      assert sql == before;
    } else {
      var t := Retexted(s, pid, before + "\n" + texts[0]);
      LineStep(f, s, texts[0], pid);
      BrokenStep(before, texts);
      assert Tabbed(texts)[0] == "\t" + texts[0] && Tabbed(texts)[1..] == Tabbed(texts[1..]);
      ThroughLines(f, t, texts[1..], pid, sql);
      RetextedTwice(s, pid, before + "\n" + texts[0], sql);
    }
  }

  /** One statement is open and nothing output: it is what the log gives. */
  lemma OnlyStatement(f: Format, s: State, pid: nat, p: Pending)
    requires s.pending == map[pid := p] && p.session == pid && s.out == []
    ensures Run(f, s, []).statements == [Statement(p.sql, Listed(p.detail), p.duration, pid)]
  {
    assert pid in s.pending && forall q :: q in s.pending ==> q == pid;
    assert Least(s.pending) == pid;
    var t := Flushed(s, pid);
    assert t.pending == map[] && t.out == [Finish(p)] && FlushAll(s) == FlushAll(t) == t;
    Finished(p);
  }

  /** A statement logged over several lines is read back with its line breaks. */
  lemma LinesJoined(f: Format, a: string, texts: seq<string>, pid: nat, sql: string, duration: Option<real>)
    requires Logs(f, a, pid, sql, duration) && Untabbed(texts)
    ensures Run(f, Initial, [a] + Tabbed(texts)).statements == [Statement(sql + Broken(texts), [], duration, pid)]
  {
    var s, whole := Step(f, Initial, a), sql + Broken(texts);
    assert Classify(f, a) == Logged(pid, sql, duration);
    RunCons(f, Initial, a, Tabbed(texts));
    ThroughLines(f, s, texts, pid, whole);
    RunConcat(f, s, Tabbed(texts), []);
    assert Tabbed(texts) + [] == Tabbed(texts);
    var p := Pending(whole, duration, None, pid);
    assert Retexted(s, pid, whole).pending == map[pid := p];
    OnlyStatement(f, Retexted(s, pid, whole), pid, p);
  }

  lemma {:induction false} EscapeConcat(x: string, y: string)
    ensures Escape(x + y) == Escape(x) + Escape(y)
  {
    if x == [] {
      assert x + y == y;
    } else {
      assert (x + y)[1..] == x[1..] + y;
      EscapeConcat(x[1..], y);
    }
  }

  lemma {:induction false} EscapeTrimmed(y: string)
    ensures TrimStart(Escape(y) + "'") == Escape(TrimStart(y)) + "'"
  {
    if y != [] && IsWhite(y[0]) {
      assert Escape(y) + "'" == [y[0]] + (Escape(y[1..]) + "'");
      assert (Escape(y) + "'")[1..] == Escape(y[1..]) + "'";
      EscapeTrimmed(y[1..]);
    } else if y != [] {
      assert !IsWhite((Escape(y) + "'")[0]);
    }
  }

  lemma {:induction false} TabsAreWhite(s: string)
    ensures TrimStart(TrimTabs(s)) == TrimStart(s)
  {
    if s != [] && s[0] == '\t' { TabsAreWhite(s[1..]); }
  }

  /** The second line of a value, as the reader joins it. */
  lemma SecondLine(y: string)
    ensures TrimStart(TrimTabs("\t" + Escape(y) + "'")) == Escape(TrimStart(y)) + "'"
  {
    var tail := "\t" + Escape(y) + "'";
    TabsAreWhite(tail);
    assert tail[1..] == Escape(y) + "'";
    EscapeTrimmed(y);
  }

  lemma EscapeSpaced(x: string, y: string)
    ensures Escape(x + " " + y) == Escape(x) + " " + Escape(y)
  {
    EscapeConcat(x + " ", y);
    EscapeConcat(x, " ");
    assert Escape(" ") == " ";
  }

  lemma GlueSpaced(p: string, q: string, a: string, s: string, b: string, z: string)
    ensures p + q + a + s + (b + z) == p + (q + (a + s + b) + z)
  {
  }

  lemma PrintOne(v: string)
    ensures Print([Some(v)]) == "$1 = '" + Escape(v) + "'"
  {
    var a := "$" + Decimal(1) + " = ";
    var item := PrintItem(1, Some(v));
    assert item == a + ("'" + Escape(v) + "'");
    Glue(a, "'", Escape(v), "'");
    assert PrintFrom([Some(v)], 1) == "" && PrintFrom([Some(v)], 0) == "" + item + "" == item;
    assert a + "'" == "$1 = '" by { assert Decimal(1) == "1"; }
  }

  lemma OneValue(x: string, z: string)
    ensures "Parameters: $1 = '" + Escape(x) + " " + (Escape(z) + "'") == "Parameters: " + Print([Some(x + " " + z)])
  {
    EscapeSpaced(x, z);
    PrintOne(x + " " + z);
    var p, q := "Parameters: ", "$1 = '";
    GlueSpaced(p, q, Escape(x), " ", Escape(z), "'");
    assert p + q == "Parameters: $1 = '";
  }

  /** A parameter list over two lines is joined by a space. */
  lemma DetailJoined(
    f: Format, a: string, d: string, c: string, pid: nat, sql: string, duration: Option<real>, text: string)
    requires Logs(f, a, pid, sql, duration) && Details(f, d, pid, text) && Starts(text, "Parameters: ")
    requires IsContinuation(c)
    ensures Run(f, Initial, [a, d, c]).statements
         == [Statement(sql, Listed(Some(text + " " + TrimStart(TrimTabs(c)))), duration, pid)]
  {
    assert text[0] == 'P' && TrimStart(text) == text;
    assert Classify(f, a) == Logged(pid, sql, duration) && Classify(f, d) == Parameters(pid, text);
    var t := Step(f, Step(f, Step(f, Initial, a), d), c);
    var p := Pending(sql, duration, Some(text + " " + TrimStart(TrimTabs(c))), pid);
    assert t.pending == map[pid := p] && t.out == [];
    RunThree(f, Initial, a, d, c);
    OnlyStatement(f, t, pid, p);
  }

  lemma ListedPrint(values: seq<Option<string>>, detail: string)
    requires |values| <= USIZE_MAX && detail == "Parameters: " + Print(values)
    ensures Listed(Some(detail)) == values
  {
    RoundTrip(values);
    assert detail[0] == 'P' && TrimStart(detail) == detail && detail[12..] == Print(values);
  }

  /** A value with a line break is not read back: the break, and the white space behind it, come back as one space. */
  lemma LineBreakLost(
    f: Format, a: string, d: string, pid: nat, sql: string, duration: Option<real>, x: string, y: string)
    requires Logs(f, a, pid, sql, duration) && Details(f, d, pid, "Parameters: $1 = '" + Escape(x))
    ensures Run(f, Initial, [a, d, "\t" + Escape(y) + "'"]).statements
         == [Statement(sql, [Some(x + " " + TrimStart(y))], duration, pid)]
  {
    var c, text := "\t" + Escape(y) + "'", "Parameters: $1 = '" + Escape(x);
    assert c[0] == '\t' && text[..12] == "Parameters: ";
    DetailJoined(f, a, d, c, pid, sql, duration, text);
    SecondLine(y);
    OneValue(x, TrimStart(y));
    ListedPrint([Some(x + " " + TrimStart(y))], text + " " + TrimStart(TrimTabs(c)));
  }

  // The end of the log.

  predicate Ascending(statements: seq<Statement>) {
    forall i, j :: 0 <= i < j < |statements| ==> statements[i].session < statements[j].session
  }

  /** The statements still open at the end come last, by ascending backend. */
  lemma {:induction false} EndAscends(s: State) returns (tail: seq<Statement>)
    requires Keyed(s)
    ensures FlushAll(s).out == s.out + tail && Ascending(tail)
    ensures forall i :: 0 <= i < |tail| ==> tail[i].session in s.pending
    decreases |s.pending|
  {
    if s.pending == map[] {
      tail := [];
    } else {
      var pid := Least(s.pending);
      var rest := EndAscends(Flushed(s, pid));
      tail := [Finish(s.pending[pid])] + rest;
      assert s.out + [Finish(s.pending[pid])] + rest == s.out + tail;
    }
  }
}
