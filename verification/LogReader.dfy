/** The reader of stderr-format server logs: one stream of lines from many backends (fit/src/input.rs). */
module LogReader {
  import opened Common
  import opened ParameterSpec
  import ParameterParser

  /** How a line splits into backend, severity and message, and a message into statement text and duration. */
  datatype Format = Format(
    split: string -> Option<(nat, string, string)>,
    statement: string -> Option<(string, Option<real>)>)

  datatype Statement = Statement(sql: string, parameters: seq<Option<string>>, duration: Option<real>, session: nat)

  datatype TraceRead = TraceRead(statements: seq<Statement>, dropped: nat)

  /** A statement whose backend may still report its parameters. */
  datatype Pending = Pending(sql: string, duration: Option<real>, detail: Option<string>, session: nat)

  datatype LastMessage = OfStatement(pid: nat) | OfDetail(pid: nat)

  datatype State = State(pending: map<nat, Pending>, out: seq<Statement>, dropped: nat, last: Option<LastMessage>)

  const Initial: State := State(map[], [], 0, None)

  predicate IsWhite(c: char) { c == ' ' || c == '\t' || c == '\n' || c == '\r' }

  function TrimStart(s: string): string { if s != [] && IsWhite(s[0]) then TrimStart(s[1..]) else s }

  function TrimTabs(s: string): string { if s != [] && s[0] == '\t' then TrimTabs(s[1..]) else s }

  predicate IsContinuation(line: string) { Starts(line, "\t") || Starts(line, "        ") }

  predicate IsParameters(rest: string) { Starts(TrimStart(rest), "Parameters: ") }

  /** The parameters a detail lists; a list that cannot be parsed yields none and counts as dropped. */
  function DetailParameters(detail: string): (seq<Option<string>>, nat) {
    var trimmed := TrimStart(detail);
    if !Starts(trimmed, "Parameters: ") then ([], 0)
    else
      var values := Parse(trimmed[12..]);
      if values.None? then ([], 1) else (values.value, 0)
  }

  function ParametersOf(p: Pending): (seq<Option<string>>, nat) {
    if p.detail.None? then ([], 0) else DetailParameters(p.detail.value)
  }

  function Finish(p: Pending): Statement { Statement(p.sql, ParametersOf(p).0, p.duration, p.session) }

  function Flushed(s: State, pid: nat): State {
    if pid !in s.pending then s
    else
      var p := s.pending[pid];
      s.(out := s.out + [Finish(p)], dropped := s.dropped + ParametersOf(p).1, pending := s.pending - {pid})
  }

  /** A continuation line extends the message started last. */
  function Continued(s: State, line: string): State {
    var text := TrimTabs(line);
    match s.last
    case Some(OfStatement(pid)) =>
      if pid !in s.pending then s
      else s.(pending := s.pending[pid := s.pending[pid].(sql := s.pending[pid].sql + "\n" + text)])
    case Some(OfDetail(pid)) =>
      if pid !in s.pending || s.pending[pid].detail.None? then s
      else
        var detail := s.pending[pid].detail.value + " " + TrimStart(text);
        s.(pending := s.pending[pid := s.pending[pid].(detail := Some(detail))])
    case None => s
  }

  /** What a line that starts a message says. */
  datatype Message =
    | Unrecognized
    | Logged(pid: nat, sql: string, duration: Option<real>)
    | Parameters(pid: nat, detail: string)
    | OtherDetail(pid: nat)
    | Other(pid: nat)

  function Classify(f: Format, line: string): Message {
    match f.split(line)
    case None => Unrecognized
    case Some((pid, severity, rest)) =>
      if severity == "LOG" then
        match f.statement(rest)
        case Some((sql, duration)) => Logged(pid, sql, duration)
        case None => Other(pid)
      else if severity == "DETAIL" then
        if IsParameters(rest) then Parameters(pid, TrimStart(rest)) else OtherDetail(pid)
      else Other(pid)
  }

  function Apply(s: State, m: Message): State {
    match m
    case Unrecognized => s
    case Logged(pid, sql, duration) =>
      var t := Flushed(s, pid);
      t.(pending := t.pending[pid := Pending(sql, duration, None, pid)], last := Some(OfStatement(pid)))
    case Parameters(pid, detail) =>
      if pid !in s.pending then s
      else s.(pending := s.pending[pid := s.pending[pid].(detail := Some(detail))], last := Some(OfDetail(pid)))
    case OtherDetail(_) => s
    case Other(pid) => Flushed(s, pid).(last := None)
  }

  function Step(f: Format, s: State, line: string): State {
    if IsContinuation(line) then Continued(s, line) else Apply(s, Classify(f, line))
  }

  ghost function Least(m: map<nat, Pending>): (k: nat)
    requires m != map[]
    ensures k in m && forall j :: j in m ==> k <= j
    decreases |m|
  {
    var k :| k in m;
    var rest := m - {k};
    if rest == map[] then assert forall j :: j in m ==> j == k || j in rest; k
    else
      var r := Least(rest);
      assert forall j :: j in m ==> j == k || j in rest;
      if k < r then k else r
  }

  /** What is still pending at the end, by ascending backend. */
  ghost function FlushAll(s: State): State
    decreases |s.pending|
  {
    if s.pending == map[] then s else FlushAll(Flushed(s, Least(s.pending)))
  }

  ghost function Run(f: Format, s: State, lines: seq<string>): TraceRead
    decreases |lines|
  {
    if lines == [] then var t := FlushAll(s); TraceRead(t.out, t.dropped)
    else Run(f, Step(f, s, lines[0]), lines[1..])
  }

  method LeastKey(m: map<nat, Pending>) returns (k: nat)
    requires m != map[]
    ensures k == Least(m)
  {
    var left := m.Keys;
    var first :| first in left;
    k, left := first, left - {first};
    while left != {}
      invariant left <= m.Keys && k in m && k !in left
      invariant forall j :: j in m && j !in left ==> k <= j
      decreases |left|
    {
      var j :| j in left;
      if j < k {
        k := j;
      }
      left := left - {j};
    }
  }

  method StderrLogRead(f: Format, lines: seq<string>) returns (r: TraceRead)
    ensures r == Run(f, Initial, lines)
  {
    var s := Initial;
    assert lines[0..] == lines;
    for i := 0 to |lines|
      invariant Run(f, s, lines[i..]) == Run(f, Initial, lines)
    {
      assert lines[i..][0] == lines[i] && lines[i..][1..] == lines[i + 1..];
      s := Step(f, s, lines[i]);
    }
    assert lines[|lines|..] == [];
    ghost var whole := FlushAll(s);
    while s.pending != map[]
      invariant FlushAll(s) == whole
      decreases |s.pending|
    {
      var pid := LeastKey(s.pending);
      s := Flushed(s, pid);
    }
    r := TraceRead(s.out, s.dropped);
  }

  // What one backend's messages mean, on their own.

  predicate From(m: Message, p: nat) { !m.Unrecognized? && m.pid == p }

  predicate IsStatement(f: Format, line: string) { Classify(f, line).Logged? }

  /** The parameter detail that `p` reports before any other of its messages: the last of several, else `current`. */
  function LastDetail(messages: seq<Message>, p: nat, current: Option<string>): Option<string> {
    if messages == [] then current
    else if !From(messages[0], p) then LastDetail(messages[1..], p, current)
    else
      match messages[0]
      case Parameters(_, detail) => LastDetail(messages[1..], p, Some(detail))
      case OtherDetail(_) => LastDetail(messages[1..], p, current)
      case _ => current
  }

  /** A parameter list that parses, and what it lists; no detail, or one that is no list, lists nothing. */
  function Listed(detail: Option<string>): seq<Option<string>> {
    if detail.None? || !IsParameters(detail.value) then []
    else
      var values := Parse(TrimStart(detail.value)[12..]);
      if values.None? then [] else values.value
  }

  predicate Unparsed(detail: Option<string>) {
    detail.Some? && IsParameters(detail.value) && Parse(TrimStart(detail.value)[12..]).None?
  }

  /** One statement for each of the backend's statement messages, with the parameters of the detail that follows it. */
  function Reference(messages: seq<Message>, p: nat): seq<Statement> {
    if messages == [] then []
    else
      var m, rest := messages[0], Reference(messages[1..], p);
      if From(m, p) && m.Logged?
      then [Statement(m.sql, Listed(LastDetail(messages[1..], p, None)), m.duration, p)] + rest
      else rest
  }

  function Only(statements: seq<Statement>, p: nat): seq<Statement> {
    if statements == [] then []
    else
      Only(statements[..|statements| - 1], p)
        + if statements[|statements| - 1].session == p then [statements[|statements| - 1]] else []
  }

  function MessagesOf(messages: seq<Message>, p: nat): seq<Message> {
    if messages == [] then []
    else (if From(messages[0], p) then [messages[0]] else []) + MessagesOf(messages[1..], p)
  }

  function StatementLines(f: Format, lines: seq<string>): nat {
    if lines == [] then 0
    else (if !IsContinuation(lines[0]) && IsStatement(f, lines[0]) then 1 else 0) + StatementLines(f, lines[1..])
  }

  /** The reader, given whole messages. */
  ghost function Read(s: State, messages: seq<Message>): TraceRead
    decreases |messages|
  {
    if messages == [] then var t := FlushAll(s); TraceRead(t.out, t.dropped)
    else Read(Apply(s, messages[0]), messages[1..])
  }

  /** A finished statement has the parameters its detail lists, and is dropped from the count if that does not parse. */
  lemma Finished(p: Pending)
    ensures Finish(p) == Statement(p.sql, Listed(p.detail), p.duration, p.session)
    ensures ParametersOf(p).1 == if Unparsed(p.detail) then 1 else 0
  {
  }

  predicate Keyed(s: State) { forall pid :: pid in s.pending ==> s.pending[pid].session == pid }

  lemma OnlyAppend(statements: seq<Statement>, x: Statement, p: nat)
    ensures Only(statements + [x], p) == Only(statements, p) + if x.session == p then [x] else []
  {
    assert (statements + [x])[..|statements|] == statements;
  }

  lemma FlushedOnly(s: State, pid: nat, p: nat)
    requires Keyed(s)
    ensures Keyed(Flushed(s, pid))
    ensures Only(Flushed(s, pid).out, p)
         == Only(s.out, p) + if pid == p && p in s.pending then [Finish(s.pending[p])] else []
  {
    if pid in s.pending { OnlyAppend(s.out, Finish(s.pending[pid]), p); }
  }

  lemma {:induction false} FlushAllOnly(s: State, p: nat)
    requires Keyed(s)
    ensures Only(FlushAll(s).out, p) == Only(s.out, p) + if p in s.pending then [Finish(s.pending[p])] else []
    decreases |s.pending|
  {
    if s.pending != map[] {
      var pid := Least(s.pending);
      FlushedOnly(s, pid, p);
      FlushAllOnly(Flushed(s, pid), p);
    }
  }

  /** What the reader still owes backend `p`: its open statement with the detail to come. */
  ghost function Owed(s: State, messages: seq<Message>, p: nat): seq<Statement> {
    if p !in s.pending then []
    else
      var open := s.pending[p];
      [Statement(open.sql, Listed(LastDetail(messages, p, open.detail)), open.duration, p)]
  }

  /** What is settled and owed for backend `p`, with `messages` still to come. */
  ghost function Account(s: State, messages: seq<Message>, p: nat): seq<Statement> {
    Only(s.out, p) + Owed(s, messages, p) + Reference(messages, p)
  }

  /** A message that ends the backend's open statement moves it from owed to output. */
  lemma OwnMessageSettles(s: State, messages: seq<Message>, p: nat)
    requires Keyed(s) && messages != [] && From(messages[0], p) && (messages[0].Logged? || messages[0].Other?)
    ensures Account(Apply(s, messages[0]), messages[1..], p) == Account(s, messages, p)
  {
    var t, rest := Apply(s, messages[0]), Reference(messages[1..], p);
    FlushedOnly(s, p, p);
    var before := if p in s.pending then [Finish(s.pending[p])] else [];
    if p in s.pending { Finished(s.pending[p]); }
    assert Owed(s, messages, p) == before && Only(t.out, p) == Only(s.out, p) + before;
    assert Reference(messages, p) == Owed(t, messages[1..], p) + rest;
    Regroup(Only(s.out, p), before, Owed(t, messages[1..], p), rest);
  }

  /** A backend's detail only changes what it is owed, and another backend's message changes nothing. */
  lemma OtherMessageKeeps(s: State, messages: seq<Message>, p: nat)
    requires Keyed(s) && messages != []
    requires var m := messages[0]; m.Logged? || m.Other? ==> m.pid != p
    ensures Account(Apply(s, messages[0]), messages[1..], p) == Account(s, messages, p)
  {
    var m, t := messages[0], Apply(s, messages[0]);
    if m.Logged? || m.Other? { FlushedOnly(s, m.pid, p); }
    assert Only(t.out, p) == Only(s.out, p);
    assert Owed(t, messages[1..], p) == Owed(s, messages, p);
  }

  lemma Regroup<T>(a: seq<T>, b: seq<T>, c: seq<T>, d: seq<T>)
    ensures a + b + c + d == a + b + (c + d)
  {
  }

  lemma StepAttributes(s: State, messages: seq<Message>, p: nat)
    requires Keyed(s) && messages != []
    ensures Keyed(Apply(s, messages[0])) && Account(Apply(s, messages[0]), messages[1..], p) == Account(s, messages, p)
  {
    var m := messages[0];
    KeepsKeyed(s, m);
    if From(m, p) && (m.Logged? || m.Other?) {
      OwnMessageSettles(s, messages, p);
    } else {
      OtherMessageKeeps(s, messages, p);
    }
  }

  lemma EndAttributes(s: State, p: nat)
    requires Keyed(s)
    ensures Only(Read(s, []).statements, p) == Account(s, [], p)
  {
    FlushAllOnly(s, p);
    if p in s.pending { Finished(s.pending[p]); }
  }

  /** For any interleaving of messages, one backend's output is what its own messages mean. */
  lemma {:induction false} Attribution(s: State, messages: seq<Message>, p: nat)
    requires Keyed(s)
    ensures Only(Read(s, messages).statements, p) == Account(s, messages, p)
    decreases |messages|
  {
    if messages == [] {
      EndAttributes(s, p);
    } else {
      StepAttributes(s, messages, p);
      Attribution(Apply(s, messages[0]), messages[1..], p);
    }
  }

  lemma MessagesOfStep(messages: seq<Message>, p: nat)
    requires messages != []
    ensures var own := MessagesOf(messages[1..], p);
      MessagesOf(messages, p) == if From(messages[0], p) then [messages[0]] + own else own
    ensures From(messages[0], p) ==> MessagesOf(messages, p)[1..] == MessagesOf(messages[1..], p)
  {
  }

  lemma {:induction false} DetailIsOwn(messages: seq<Message>, p: nat, current: Option<string>)
    ensures LastDetail(MessagesOf(messages, p), p, current) == LastDetail(messages, p, current)
  {
    if messages != [] {
      var m := messages[0];
      MessagesOfStep(messages, p);
      DetailIsOwn(messages[1..], p, if From(m, p) && m.Parameters? then Some(m.detail) else current);
    }
  }

  /** The meaning of a backend's messages does not change when the others' are taken away. */
  lemma {:induction false} ReferenceIsOwn(messages: seq<Message>, p: nat)
    ensures Reference(MessagesOf(messages, p), p) == Reference(messages, p)
  {
    if messages != [] {
      MessagesOfStep(messages, p);
      ReferenceIsOwn(messages[1..], p);
      DetailIsOwn(messages[1..], p, None);
    }
  }

  // Messages of several lines.

  /** A message with one more line. */
  function Joined(m: Message, line: string): Message {
    var text := TrimTabs(line);
    match m
    case Logged(pid, sql, duration) => Logged(pid, sql + "\n" + text, duration)
    case Parameters(pid, detail) => Parameters(pid, detail + " " + TrimStart(text))
    case _ => m
  }

  /** The messages of a log, each with the continuation lines right behind it; `m` is the one being read. */
  function Messages(f: Format, m: Message, lines: seq<string>): seq<Message>
    decreases |lines|
  {
    if lines == [] then [m]
    else if IsContinuation(lines[0]) then Messages(f, Joined(m, lines[0]), lines[1..])
    else [m] + Messages(f, Classify(f, lines[0]), lines[1..])
  }

  /** A message that the lines after it attach to, or that makes them drop: any but a line that is not recognized, a
      detail without parameters, and a parameter detail of a backend with no open statement. */
  predicate Anchors(s: State, m: Message) { m.Logged? || m.Other? || (m.Parameters? && m.pid in s.pending) }

  /** A continuation line would add to the open message of `p`. */
  predicate Reachable(s: State, p: nat) {
    p in s.pending && s.last.Some? && s.last.value.pid == p && (s.last.value.OfDetail? ==> s.pending[p].detail.Some?)
  }

  function Reach(s: State, p: nat): Option<LastMessage> { if Reachable(s, p) then s.last else None }

  /** What a continuation line does to backend `p`, and to no other. */
  lemma ContinuedAt(s: State, line: string, p: nat)
    requires Keyed(s)
    ensures var t := Continued(s, line);
      Keyed(t) && t.out == s.out && t.dropped == s.dropped && t.last == s.last && (p in t.pending <==> p in s.pending)
    ensures p in s.pending ==>
      (var a, b := s.pending[p], Continued(s, line).pending[p];
       match Reach(s, p)
       case None => b == a
       case Some(OfStatement(_)) => b == a.(sql := b.sql) && |b.sql| > |a.sql|
       case Some(OfDetail(_)) =>
         && b == a.(detail := b.detail) && a.detail.Some? && b.detail.Some?
         && |b.detail.value| > |a.detail.value|)
  {
  }

  /** A continuation line joins the message right before it if and only if that message anchors it, or no message
      before that is still open. */
  lemma JoinExact(s: State, m: Message, line: string)
    requires Keyed(s)
    ensures Continued(Apply(s, m), line) == Apply(s, Joined(m, line))
       <==> Anchors(s, m) || s.last.None? || !Reachable(s, s.last.value.pid)
  {
    if Anchors(s, m) {
      assert Continued(Apply(s, m), line).pending == Apply(s, Joined(m, line)).pending;
    } else if s.last.Some? {
      ContinuedAt(s, line, s.last.value.pid);
      assert !Reachable(s, s.last.value.pid) ==> Continued(s, line) == s;
    }
  }

  /** Every continuation line of the log meets `JoinExact`'s condition; `m` was the message read last, `s` before it. */
  predicate Attached(f: Format, s: State, m: Message, lines: seq<string>)
    decreases |lines|
  {
    lines == [] ||
    (if IsContinuation(lines[0])
     then
       && (Anchors(s, m) || s.last.None? || !Reachable(s, s.last.value.pid))
       && Attached(f, s, Joined(m, lines[0]), lines[1..])
     else Attached(f, Apply(s, m), Classify(f, lines[0]), lines[1..]))
  }

  lemma KeepsKeyed(s: State, m: Message)
    requires Keyed(s)
    ensures Keyed(Apply(s, m))
  {
  }

  /** The reader of lines refines the reader of messages. */
  lemma {:induction false} ReadsMessages(f: Format, s: State, m: Message, lines: seq<string>)
    requires Keyed(s) && Attached(f, s, m, lines)
    ensures Run(f, Apply(s, m), lines) == Read(s, Messages(f, m, lines))
    decreases |lines|
  {
    if lines == [] {
      assert Read(s, [m]) == Read(Apply(s, m), [m][1..]);
    } else if IsContinuation(lines[0]) {
      JoinExact(s, m, lines[0]);
      ReadsMessages(f, s, Joined(m, lines[0]), lines[1..]);
    } else {
      var next := Classify(f, lines[0]);
      KeepsKeyed(s, m);
      ReadsMessages(f, Apply(s, m), next, lines[1..]);
      assert Messages(f, m, lines)[1..] == Messages(f, next, lines[1..]);
    }
  }

  /** Demultiplexing: a backend's statements, parameters and durations, in order, are what its own messages mean, of
      any number of lines and however interleaved, and are those its own messages alone produce. */
  lemma Demultiplex(f: Format, lines: seq<string>, p: nat)
    requires Attached(f, Initial, Unrecognized, lines)
    ensures var messages := Messages(f, Unrecognized, lines);
      Only(Run(f, Initial, lines).statements, p) == Reference(messages, p)
      == Only(Read(Initial, MessagesOf(messages, p)).statements, p)
  {
    var messages := Messages(f, Unrecognized, lines);
    ReadsMessages(f, Initial, Unrecognized, lines);
    Attribution(Initial, messages, p);
    Attribution(Initial, MessagesOf(messages, p), p);
    ReferenceIsOwn(messages, p);
  }

  // The log, and the lines of one backend taken out of it.

  predicate IsFrom(f: Format, line: string, p: nat) { From(Classify(f, line), p) }

  /** The messages of one backend, each with the continuation lines right behind it. */
  function BlocksOf(f: Format, lines: seq<string>, mine: bool, p: nat): seq<string>
    decreases |lines|
  {
    if lines == [] then []
    else
      var keep := if IsContinuation(lines[0]) then mine else IsFrom(f, lines[0], p);
      (if keep then [lines[0]] else []) + BlocksOf(f, lines[1..], keep, p)
  }

  /** Two readers that know the same of backend `p`. */
  predicate Agree(s: State, t: State, p: nat) {
    && Keyed(s) && Keyed(t) && Only(s.out, p) == Only(t.out, p)
    && (p in s.pending <==> p in t.pending) && (p in s.pending ==> s.pending[p] == t.pending[p])
  }

  /** A continuation line of `p` finds the same message of `p` open in both, and one of another backend none in the
      first. */
  predicate SameReach(s: State, t: State, p: nat, mine: bool) {
    if mine then Reach(s, p) == Reach(t, p) else !Reachable(s, p)
  }

  /** A continuation line, given to the second reader only if it is of `p`, keeps two readers in agreement on `p` if
      and only if it finds the same message of `p` open in both. */
  lemma ContinuationExact(s: State, t: State, line: string, p: nat, mine: bool)
    requires Agree(s, t, p)
    ensures Agree(Continued(s, line), if mine then Continued(t, line) else t, p) <==> SameReach(s, t, p, mine)
  {
    ContinuedAt(s, line, p);
    ContinuedAt(t, line, p);
  }

  /** Every continuation line of the log meets `ContinuationExact`'s condition, with `t` reading the blocks of `p`. */
  predicate Alike(f: Format, s: State, t: State, lines: seq<string>, p: nat, mine: bool)
    decreases |lines|
  {
    lines == [] ||
    (var continues := IsContinuation(lines[0]);
     var keep := if continues then mine else IsFrom(f, lines[0], p);
     && (continues ==> SameReach(s, t, p, mine))
     && Alike(f, Step(f, s, lines[0]), if keep then Step(f, t, lines[0]) else t, lines[1..], p, keep))
  }

  lemma OwnHeader(s: State, t: State, m: Message, p: nat)
    requires Agree(s, t, p) && From(m, p)
    ensures Agree(Apply(s, m), Apply(t, m), p)
  {
    FlushedOnly(s, p, p);
    FlushedOnly(t, p, p);
  }

  lemma ForeignHeader(s: State, t: State, m: Message, p: nat)
    requires Agree(s, t, p) && !From(m, p)
    ensures Agree(Apply(s, m), t, p)
  {
    if !m.Unrecognized? { FlushedOnly(s, m.pid, p); }
  }

  lemma HeaderAgrees(s: State, t: State, m: Message, p: nat)
    requires Agree(s, t, p)
    ensures Agree(Apply(s, m), if From(m, p) then Apply(t, m) else t, p)
  {
    if From(m, p) { OwnHeader(s, t, m, p); } else { ForeignHeader(s, t, m, p); }
  }

  lemma BlocksStep(f: Format, t: State, lines: seq<string>, mine: bool, p: nat, keep: bool)
    requires lines != [] && keep == if IsContinuation(lines[0]) then mine else IsFrom(f, lines[0], p)
    ensures Run(f, t, BlocksOf(f, lines, mine, p))
         == Run(f, if keep then Step(f, t, lines[0]) else t, BlocksOf(f, lines[1..], keep, p))
  {
    var blocks, rest := BlocksOf(f, lines, mine, p), BlocksOf(f, lines[1..], keep, p);
    if keep {
      assert blocks[0] == lines[0] && blocks[1..] == rest;
    } else {
      assert blocks == rest;
    }
  }

  lemma {:induction false} BlocksRead(f: Format, s: State, t: State, lines: seq<string>, p: nat, mine: bool)
    requires Agree(s, t, p) && Alike(f, s, t, lines, p, mine)
    ensures Only(Run(f, s, lines).statements, p) == Only(Run(f, t, BlocksOf(f, lines, mine, p)).statements, p)
    decreases |lines|
  {
    if lines == [] {
      FlushAllOnly(s, p);
      FlushAllOnly(t, p);
    } else {
      var line := lines[0];
      var keep := if IsContinuation(line) then mine else IsFrom(f, line, p);
      if IsContinuation(line) {
        ContinuationExact(s, t, line, p, mine);
      } else {
        HeaderAgrees(s, t, Classify(f, line), p);
      }
      BlocksRead(f, Step(f, s, line), if keep then Step(f, t, line) else t, lines[1..], p, keep);
      BlocksStep(f, t, lines, mine, p, keep);
    }
  }

  /** A backend's output is that of its own lines read alone, for every log whose continuation lines keep the two
      readings in agreement. */
  lemma DemultiplexBlocks(f: Format, lines: seq<string>, p: nat)
    requires Alike(f, Initial, Initial, lines, p, false)
    ensures Only(Run(f, Initial, lines).statements, p)
         == Only(Run(f, Initial, BlocksOf(f, lines, false, p)).statements, p)
  {
    BlocksRead(f, Initial, Initial, lines, p, false);
  }

  /** Only messages that anchor them are followed by continuation lines; `anchored` says so of the latest one. */
  predicate Anchored(f: Format, s: State, anchored: bool, lines: seq<string>)
    decreases |lines|
  {
    lines == [] ||
    (if IsContinuation(lines[0]) then anchored && Anchored(f, Step(f, s, lines[0]), anchored, lines[1..])
     else Anchored(f, Step(f, s, lines[0]), Anchors(s, Classify(f, lines[0])), lines[1..]))
  }

  /** The message read last is the same one of `p` in both, or not one of `p` in the first. */
  predicate LastAgrees(s: State, t: State, p: nat, mine: bool) {
    if mine then s.last == t.last else s.last.Some? ==> s.last.value.pid != p
  }

  lemma AnchorAgrees(s: State, t: State, m: Message, p: nat)
    requires Agree(s, t, p) && Anchors(s, m)
    ensures LastAgrees(Apply(s, m), if From(m, p) then Apply(t, m) else t, p, From(m, p))
  {
  }

  lemma {:induction false} AnchoredAlike(f: Format, s: State, t: State, lines: seq<string>, p: nat, mine: bool,
      anchored: bool)
    requires Agree(s, t, p) && (anchored ==> LastAgrees(s, t, p, mine)) && Anchored(f, s, anchored, lines)
    ensures Alike(f, s, t, lines, p, mine)
    decreases |lines|
  {
    if lines != [] {
      var line := lines[0];
      if IsContinuation(line) {
        ContinuationExact(s, t, line, p, mine);
        ContinuedAt(s, line, p);
        ContinuedAt(t, line, p);
        AnchoredAlike(f, Step(f, s, line), if mine then Step(f, t, line) else t, lines[1..], p, mine, anchored);
      } else {
        var m := Classify(f, line);
        HeaderAgrees(s, t, m, p);
        if Anchors(s, m) { AnchorAgrees(s, t, m, p); }
        AnchoredAlike(
          f, Apply(s, m), if From(m, p) then Apply(t, m) else t, lines[1..], p, From(m, p), Anchors(s, m));
      }
    }
  }

  /** In particular for every log whose continuation lines follow only messages that anchor them, for every backend. */
  lemma DemultiplexAnchored(f: Format, lines: seq<string>, p: nat)
    requires Anchored(f, Initial, true, lines)
    ensures Only(Run(f, Initial, lines).statements, p)
         == Only(Run(f, Initial, BlocksOf(f, lines, false, p)).statements, p)
  {
    AnchoredAlike(f, Initial, Initial, lines, p, false, true);
    DemultiplexBlocks(f, lines, p);
  }

  // Logs whose continuation lines do not attach to the message before them.

  lemma RunCons(f: Format, s: State, line: string, rest: seq<string>)
    ensures Run(f, s, [line] + rest) == Run(f, Step(f, s, line), rest)
  {
    assert ([line] + rest)[1..] == rest;
  }

  lemma BlocksCons(f: Format, line: string, rest: seq<string>, mine: bool, p: nat)
    ensures var keep := if IsContinuation(line) then mine else IsFrom(f, line, p);
      BlocksOf(f, [line] + rest, mine, p) == (if keep then [line] else []) + BlocksOf(f, rest, keep, p)
  {
    assert ([line] + rest)[1..] == rest;
  }

  /** What a log whose lines have been read outputs of `p`. */
  lemma RunEnds(f: Format, s: State, p: nat)
    requires Keyed(s) && s.out == [] && p in s.pending
    ensures Only(Run(f, s, []).statements, p) == [Finish(s.pending[p])]
  {
    FlushAllOnly(s, p);
  }

  lemma RunThree(f: Format, s: State, a: string, b: string, c: string)
    ensures Run(f, s, [a, b, c]) == Run(f, Step(f, Step(f, Step(f, s, a), b), c), [])
  {
    RunCons(f, Step(f, Step(f, s, a), b), c, []);
    RunCons(f, Step(f, s, a), b, [c]);
    RunCons(f, s, a, [b, c]);
    assert [a] + [b, c] == [a, b, c] && [b] + [c] == [b, c] && [c] + [] == [c];
  }

  /** A statement, then another backend's detail without parameters and its second line: the statement takes the line
      in, and would not if its backend's lines were read alone. */
  lemma ForeignLineTaken(f: Format, a: string, b: string, c: string, m: Message)
    requires !IsContinuation(a) && !IsContinuation(b) && IsContinuation(c)
    requires Classify(f, a) == m && m.Logged? && Classify(f, b).OtherDetail? && Classify(f, b).pid != m.pid
    ensures BlocksOf(f, [a, b, c], false, m.pid) == [a]
    ensures Only(Run(f, Initial, [a]).statements, m.pid) == [Statement(m.sql, [], m.duration, m.pid)]
    ensures Only(Run(f, Initial, [a, b, c]).statements, m.pid)
         == [Statement(m.sql + "\n" + TrimTabs(c), [], m.duration, m.pid)]
  {
    var s := Apply(Initial, m);
    RunThree(f, Initial, a, b, c);
    RunEnds(f, Continued(s, c), m.pid);
    RunCons(f, Initial, a, []);
    RunEnds(f, s, m.pid);
    assert [a] + [] == [a] && [a] + [b, c] == [a, b, c] && [b] + [c] == [b, c] && [c] + [] == [c];
    BlocksCons(f, c, [], false, m.pid);
    BlocksCons(f, b, [c], true, m.pid);
    BlocksCons(f, a, [b, c], false, m.pid);
  }

  lemma OwnBlocks(f: Format, a: string, d: string, e: string, c: string, p: nat)
    requires !IsContinuation(a) && !IsContinuation(d) && !IsContinuation(e) && IsContinuation(c)
    requires IsFrom(f, a, p) && !IsFrom(f, d, p) && IsFrom(f, e, p)
    ensures BlocksOf(f, [a, d, e, c], false, p) == [a, e, c]
  {
    assert [a] + [d, e, c] == [a, d, e, c] && [d] + [e, c] == [d, e, c] && [e] + [c] == [e, c] && [c] + [] == [c];
    BlocksCons(f, c, [], true, p);
    BlocksCons(f, e, [c], false, p);
    BlocksCons(f, d, [e, c], true, p);
    BlocksCons(f, a, [d, e, c], false, p);
  }

  /** A statement, another backend's statement, then the first backend's detail without parameters and its second
      line: the second statement takes the line in, and the first would if its backend's lines were read alone. */
  lemma OwnLineLost(f: Format, a: string, d: string, e: string, c: string, m: Message)
    requires !IsContinuation(a) && !IsContinuation(d) && !IsContinuation(e) && IsContinuation(c)
    requires Classify(f, a) == m && m.Logged? && Classify(f, d).Logged? && Classify(f, d).pid != m.pid
    requires Classify(f, e) == OtherDetail(m.pid)
    ensures BlocksOf(f, [a, d, e, c], false, m.pid) == [a, e, c]
    ensures Only(Run(f, Initial, [a, e, c]).statements, m.pid)
         == [Statement(m.sql + "\n" + TrimTabs(c), [], m.duration, m.pid)]
    ensures Only(Run(f, Initial, [a, d, e, c]).statements, m.pid) == [Statement(m.sql, [], m.duration, m.pid)]
  {
    var s := Apply(Initial, m);
    RunThree(f, Initial, a, e, c);
    RunEnds(f, Continued(s, c), m.pid);
    assert [a] + [d, e, c] == [a, d, e, c];
    RunCons(f, Initial, a, [d, e, c]);
    RunThree(f, s, d, e, c);
    RunEnds(f, Continued(Apply(s, Classify(f, d)), c), m.pid);
    OwnBlocks(f, a, d, e, c, m.pid);
  }

  /** "a" and "d" are statements of backends 1 and 2, "b" and "e" details of backends 2 and 1 without parameters. */
  const TWO_BACKENDS := Format(
    line =>
      if line == "a" then Some((1, "LOG", "x"))
      else if line == "d" then Some((2, "LOG", "y"))
      else if line == "b" then Some((2, "DETAIL", "z"))
      else if line == "e" then Some((1, "DETAIL", "z"))
      else None,
    (rest: string) => Some((rest, None)))

  /** Two logs of which a backend's own lines do not give its output. */
  lemma LinesMisread()
    ensures var f, p := TWO_BACKENDS, 1;
      var taken, lost := ["a", "b", "\tc"], ["a", "d", "e", "\tc"];
      && Only(Run(f, Initial, taken).statements, p) != Only(Run(f, Initial, BlocksOf(f, taken, false, p)).statements, p)
      && Only(Run(f, Initial, lost).statements, p) != Only(Run(f, Initial, BlocksOf(f, lost, false, p)).statements, p)
  {
    var f, m := TWO_BACKENDS, Logged(1, "x", None);
    assert TrimStart("z") == "z";
    assert Classify(f, "a") == m && Classify(f, "d") == Logged(2, "y", None);
    assert Classify(f, "b") == OtherDetail(2) && Classify(f, "e") == OtherDetail(1);
    assert !IsContinuation("a") && !IsContinuation("b") && !IsContinuation("d") && !IsContinuation("e");
    assert IsContinuation("\tc") && |"x" + "\n" + TrimTabs("\tc")| > |"x"|;
    ForeignLineTaken(f, "a", "b", "\tc", m);
    OwnLineLost(f, "a", "d", "e", "\tc", m);
  }

  lemma {:induction false} FlushAllCounts(s: State)
    ensures |FlushAll(s).out| == |s.out| + |s.pending|
    decreases |s.pending|
  {
    if s.pending != map[] { FlushAllCounts(Flushed(s, Least(s.pending))); }
  }

  lemma StepCounts(f: Format, s: State, line: string)
    ensures var t := Step(f, s, line);
      |t.out| + |t.pending| == |s.out| + |s.pending| + if !IsContinuation(line) && IsStatement(f, line) then 1 else 0
  {
  }

  /** Exactly one output per statement line, and every open statement is output in the end. */
  lemma {:induction false} OneOutputPerStatement(f: Format, s: State, lines: seq<string>)
    ensures |Run(f, s, lines).statements| == |s.out| + |s.pending| + StatementLines(f, lines)
    decreases |lines|
  {
    if lines == [] {
      FlushAllCounts(s);
    } else {
      StepCounts(f, s, lines[0]);
      OneOutputPerStatement(f, Step(f, s, lines[0]), lines[1..]);
    }
  }

  /** A detail the server printed gives its parameters back, and nothing is dropped. */
  lemma PrintedDetail(values: seq<Option<string>>)
    requires |values| <= USIZE_MAX
    ensures DetailParameters("Parameters: " + Print(values)) == (values, 0)
  {
    RoundTrip(values);
    var detail := "Parameters: " + Print(values);
    assert detail[0] == 'P' && TrimStart(detail) == detail && detail[12..] == Print(values);
  }
}
