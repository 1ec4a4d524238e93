/** draft/multiline: splitting a text into a batch, and reconstructing batches from interleaved incoming messages. */
module Multiline {
  import opened Wrappers
  import opened Text

  const MAX_OPEN := 8
  const MAX_LINES := 1024
  const MAX_BYTES := 64 * 1024
  const CONCAT := "draft/multiline-concat"

  type Tags = map<string, string>

  datatype Message = Message(tags: Tags, prefix: Option<string>, command: string, params: seq<string>)

  // ---- Splitting a text --------------------------------------------------------------------------------------------

  /** strings.ReplaceAll(text, CRLF, LF). */
  function UnixNewlines(text: string): string {
    if text == "" then ""
    else if "\r\n" <= text then "\n" + UnixNewlines(text[2..])
    else [text[0]] + UnixNewlines(text[1..])
  }

  function DropTrailingEmpty(lines: seq<string>): seq<string> {
    if lines != [] && lines[|lines| - 1] == "" then DropTrailingEmpty(lines[..|lines| - 1]) else lines
  }

  method MultilineLines(text: string) returns (lines: seq<string>)
    ensures lines == DropTrailingEmpty(Split(UnixNewlines(text), '\n'))
  {
    lines := Split(UnixNewlines(text), '\n');
    while |lines| > 0 && lines[|lines| - 1] == ""
      invariant DropTrailingEmpty(lines) == DropTrailingEmpty(Split(UnixNewlines(text), '\n'))
      decreases |lines|
    {
      lines := lines[..|lines| - 1];
    }
  }

  function TrimNewlines(s: string): string {
    if s != "" && s[|s| - 1] == '\n' then TrimNewlines(s[..|s| - 1]) else s
  }

  /** The text with CRLF made LF and trailing newlines removed. */
  function Normalized(text: string): string {
    TrimNewlines(UnixNewlines(text))
  }

  lemma {:induction false} JoinAppend(lines: seq<string>, last: string)
    requires lines != []
    ensures Join(lines + [last], '\n') == Join(lines, '\n') + "\n" + last
  {
    if |lines| == 1 {
      assert (lines + [last])[1..] == [last];
    } else {
      assert (lines + [last])[1..] == lines[1..] + [last];
      JoinAppend(lines[1..], last);
    }
  }

  lemma {:induction false} TrimJoin(lines: seq<string>)
    requires forall l :: l in lines ==> '\n' !in l
    ensures TrimNewlines(Join(lines, '\n')) == Join(DropTrailingEmpty(lines), '\n')
    decreases |lines|
  {
    if lines != [] {
      var k := |lines| - 1;
      var init, last := lines[..k], lines[k];
      assert lines == init + [last];
      if init != [] { JoinAppend(init, last); }
      if last == "" {
        TrimJoin(init);
        if init != [] {
          var s := Join(init, '\n');
          assert Join(lines, '\n') == s + "\n";
          assert (s + "\n")[..|s + "\n"| - 1] == s;
        }
      } else {
        var s := Join(lines, '\n');
        assert last in lines && last[|last| - 1] in last;
        assert s[|s| - 1] == last[|last| - 1];
      }
    }
  }

  /** Joining the lines of a text gives the text back, normalized. */
  lemma LinesJoinToText(text: string)
    ensures Join(DropTrailingEmpty(Split(UnixNewlines(text), '\n')), '\n') == Normalized(text)
  {
    var unix := UnixNewlines(text);
    SplitFree(unix, '\n');
    TrimJoin(Split(unix, '\n'));
    JoinSplit(unix, '\n');
  }

  // ---- The batch on the wire ---------------------------------------------------------------------------------------

  function Opening(batch: string, target: string): Message {
    Message(map[], None, "BATCH", ["+" + batch, "draft/multiline", target])
  }

  function Line(batch: string, target: string, line: string): Message {
    Message(map["batch" := batch], None, "PRIVMSG", [target, line])
  }

  function Closing(batch: string): Message {
    Message(map[], None, "BATCH", ["-" + batch])
  }

  function Lines(batch: string, target: string, lines: seq<string>): seq<Message> {
    seq(|lines|, i requires 0 <= i < |lines| => Line(batch, target, lines[i]))
  }

  method BuildMultilineBatch(batch: string, target: string, lines: seq<string>) returns (out: seq<Message>)
    ensures out == [Opening(batch, target)] + Lines(batch, target, lines) + [Closing(batch)]
  {
    out := [Opening(batch, target)];
    for i := 0 to |lines|
      invariant out == [Opening(batch, target)] + Lines(batch, target, lines)[..i]
    {
      out := out + [Line(batch, target, lines[i])];
    }
    out := out + [Closing(batch)];
  }

  // ---- Reconstruction ------------------------------------------------------------------------------------------------

  /** One open batch. */
  datatype Accum = Accum(target: string, command: string, prefix: Option<string>, tags: Tags, body: string, first: bool,
                         lines: nat)

  type Batches = map<string, Accum>

  /** What feeding one message does: a reconstructed message, whether the message was taken, whether a limit was hit. */
  datatype Fed = Fed(emit: Option<Message>, consumed: bool, failed: bool)

  predicate Opens(m: Message) {
    m.command == "BATCH" && |m.params| >= 3 && "+" <= m.params[0] && m.params[1] == "draft/multiline"
  }

  predicate Closes(m: Message) {
    m.command == "BATCH" && |m.params| >= 1 && "-" <= m.params[0]
  }

  function Trailing(m: Message): string {
    if m.params == [] then "" else m.params[|m.params| - 1]
  }

  /** mlAccum.add: None when a ceiling would be exceeded. */
  function AddLine(a: Accum, m: Message): Option<Accum> {
    if m.command != "PRIVMSG" && m.command != "NOTICE" then Some(a)
    else
      var newline := !a.first && CONCAT !in m.tags;
      var body := a.body + (if newline then "\n" else "") + Trailing(m);
      if a.lines + 1 > MAX_LINES || |body| > MAX_BYTES then None
      else if a.first then
        Some(a.(command := m.command, prefix := if a.prefix.None? then m.prefix else a.prefix, first := false,
                body := body, lines := a.lines + 1))
      else Some(a.(body := body, lines := a.lines + 1))
  }

  function Build(a: Accum): Option<Message> {
    if a.command == "" then None else Some(Message(a.tags, a.prefix, a.command, [a.target, a.body]))
  }

  function BatchTag(m: Message): string {
    if "batch" in m.tags then m.tags["batch"] else ""
  }

  function Feed(open: Batches, m: Message): (Batches, Fed) {
    if Opens(m) then
      if |open| >= MAX_OPEN then (open, Fed(None, true, true))
      else (open[m.params[0][1..] := Accum(m.params[2], "", m.prefix, m.tags, "", true, 0)], Fed(None, true, false))
    else if Closes(m) then
      var batch := m.params[0][1..];
      if batch !in open then (open, Fed(None, false, false))
      else (open - {batch}, Fed(Build(open[batch]), true, false))
    else
      var batch := BatchTag(m);
      if batch == "" || batch !in open then (open, Fed(None, false, false))
      else
        match AddLine(open[batch], m)
        case None => (open, Fed(None, true, true))
        case Some(a) => (open[batch := a], Fed(None, true, false))
  }

  class Reconstructor {
    var batches: Batches

    constructor ()
      ensures batches == map[]
    {
      batches := map[];
    }

    method AddTo(batch: string, m: Message) returns (ok: bool)
      requires batch in batches
      modifies this
      ensures ok <==> AddLine(old(batches)[batch], m).Some?
      ensures batches == if ok then old(batches)[batch := AddLine(old(batches)[batch], m).value] else old(batches)
    {
      var a := batches[batch];
      if m.command != "PRIVMSG" && m.command != "NOTICE" {
        assert batches[batch := a] == batches;
        return true;
      }
      var body := Trailing(m);
      var newline := !a.first;
      if CONCAT in m.tags {
        newline := false;
      }
      var sep := if newline then 1 else 0;
      if a.lines + 1 > MAX_LINES {
        return false;
      }
      if |a.body| + sep + |body| > MAX_BYTES {
        return false;
      }
      if a.first {
        a := a.(command := m.command, first := false);
        if a.prefix.None? {
          a := a.(prefix := m.prefix);
        }
      } else if newline {
        a := a.(body := a.body + "\n");
      }
      a := a.(body := a.body + body, lines := a.lines + 1);
      var known := batches[batch];
      assert (known.body + "") + body == known.body + body;
      batches := batches[batch := a];
      return true;
    }

    method FeedOne(m: Message) returns (r: Fed)
      modifies this
      ensures (batches, r) == Feed(old(batches), m)
    {
      if m.command == "BATCH" && |m.params| >= 3 && "+" <= m.params[0] && m.params[1] == "draft/multiline" {
        if |batches| >= MAX_OPEN {
          return Fed(None, true, true);
        }
        batches := batches[m.params[0][1..] := Accum(m.params[2], "", m.prefix, m.tags, "", true, 0)];
        return Fed(None, true, false);
      }
      if m.command == "BATCH" && |m.params| >= 1 && "-" <= m.params[0] {
        var batch := m.params[0][1..];
        if batch !in batches {
          return Fed(None, false, false);
        }
        var a := batches[batch];
        batches := batches - {batch};
        return Fed(Build(a), true, false);
      }
      var batch := BatchTag(m);
      if batch != "" && batch in batches {
        var ok := AddTo(batch, m);
        return Fed(None, true, !ok);
      }
      return Fed(None, false, false);
    }
  }

  // ---- The round trip ------------------------------------------------------------------------------------------------

  /** A message that has nothing to do with this batch. */
  predicate Foreign(m: Message, batch: string) {
    && (Opens(m) ==> m.params[0] != "+" + batch)
    && (Closes(m) ==> m.params[0] != "-" + batch)
    && BatchTag(m) != batch
  }

  /** As relayed: same command and parameters, the same batch, no concatenation; source and other tags are free. */
  predicate Carries(m: Message, sent: Message) {
    && m.command == sent.command && m.params == sent.params && CONCAT !in m.tags
    && (sent.command != "BATCH" ==> BatchTag(m) == BatchTag(sent))
  }

  /** An incoming stream: each message is the next one of the batch, or foreign to it. */
  datatype Arrival = Mine(m: Message) | Other(m: Message)

  /** The batch's own messages in a stream are exactly these, as relayed. */
  predicate Delivers(stream: seq<Arrival>, batch: string, sent: seq<Message>)
    decreases |stream|
  {
    if stream == [] then sent == []
    else
      match stream[0]
      case Other(m) => Foreign(m, batch) && Delivers(stream[1..], batch, sent)
      case Mine(m) => sent != [] && Carries(m, sent[0]) && Delivers(stream[1..], batch, sent[1..])
  }

  /** The read loop: a message that trips a ceiling ends the connection, so nothing after it is fed. */
  function FeedAll(open: Batches, stream: seq<Arrival>): (Batches, seq<Fed>)
    decreases |stream|
  {
    if stream == [] then (open, [])
    else
      var (next, fed) := Feed(open, stream[0].m);
      if fed.failed then (next, [fed])
      else
        var (last, rest) := FeedAll(next, stream[1..]);
        (last, [fed] + rest)
  }

  /** What feeding the batch's own messages yielded, in order. */
  function Mines(stream: seq<Arrival>, feds: seq<Fed>): seq<Fed>
    requires |feds| == |stream|
  {
    if stream == [] then []
    else (if stream[0].Mine? then [feds[0]] else []) + Mines(stream[1..], feds[1..])
  }

  /** The connection ended under a message foreign to the batch. */
  predicate CutShort(stream: seq<Arrival>, feds: seq<Fed>) {
    && 1 <= |feds| <= |stream| && feds[|feds| - 1].failed && stream[|feds| - 1].Other?
    && forall i :: 0 <= i < |feds| - 1 ==> !feds[i].failed
  }

  lemma CutShortMore(stream: seq<Arrival>, feds: seq<Fed>, fed: Fed)
    requires stream != [] && CutShort(stream[1..], feds) && !fed.failed
    ensures CutShort(stream, [fed] + feds)
  {
    var all := [fed] + feds;
    assert all[|all| - 1] == feds[|feds| - 1] && stream[|all| - 1] == stream[1..][|feds| - 1];
    assert forall i :: 1 <= i < |all| ==> all[i] == feds[i - 1];
  }

  function Slot(open: Batches, batch: string): Option<Accum> {
    if batch in open then Some(open[batch]) else None
  }

  /** Foreign messages do not touch the batch. */
  lemma ForeignKeeps(open: Batches, m: Message, batch: string)
    requires Foreign(m, batch)
    ensures Slot(Feed(open, m).0, batch) == Slot(open, batch)
  {
    if Opens(m) { assert m.params[0] == "+" + m.params[0][1..]; }
    if Closes(m) { assert m.params[0] == "-" + m.params[0][1..]; }
  }

  /** The body once these lines are added. */
  function Grown(body: string, first: bool, lines: seq<string>): string
    decreases |lines|
  {
    if lines == [] then body
    else Grown(body + (if first then "" else "\n") + lines[0], false, lines[1..])
  }

  lemma {:induction false} GrownIsJoin(body: string, lines: seq<string>)
    ensures Grown(body, false, lines) == body + if lines == [] then "" else "\n" + Join(lines, '\n')
    decreases |lines|
  {
    if lines == [] {
      assert body + "" == body;
    } else {
      var more := body + "\n" + lines[0];
      GrownIsJoin(more, lines[1..]);
      if |lines| > 1 {
        assert more + ("\n" + Join(lines[1..], '\n')) == body + ("\n" + (lines[0] + "\n" + Join(lines[1..], '\n')));
      } else {
        assert more + "" == body + ("\n" + lines[0]);
      }
    }
  }

  lemma GrownFromStart(lines: seq<string>)
    ensures Grown("", true, lines) == Join(lines, '\n')
  {
    if lines != [] {
      assert "" + "" + lines[0] == lines[0];
      GrownIsJoin(lines[0], lines[1..]);
      if |lines| == 1 { assert lines[0] + "" == lines[0]; }
      else { assert lines[0] + ("\n" + Join(lines[1..], '\n')) == lines[0] + "\n" + Join(lines[1..], '\n'); }
    }
  }

  lemma {:induction false} GrownLonger(body: string, first: bool, lines: seq<string>)
    ensures |Grown(body, first, lines)| >= |body|
    decreases |lines|
  {
    if lines != [] { GrownLonger(body + (if first then "" else "\n") + lines[0], false, lines[1..]); }
  }

  /** The outcomes of a batch's own messages: all taken without a word, then the close. */
  predicate Quietly(feds: seq<Fed>, emit: Option<Message>) {
    && |feds| >= 1 && feds[|feds| - 1] == Fed(emit, true, false)
    && forall i :: 0 <= i < |feds| - 1 ==> feds[i] == Fed(None, true, false)
  }

  lemma QuietlyMore(feds: seq<Fed>, emit: Option<Message>)
    requires Quietly(feds, emit)
    ensures Quietly([Fed(None, true, false)] + feds, emit)
  {
  }

  /** The outcome for a batch: the connection ended under a foreign message, or all its messages were taken. */
  predicate Outcome(stream: seq<Arrival>, feds: seq<Fed>, emit: Option<Message>) {
    CutShort(stream, feds) || (|feds| == |stream| && Quietly(Mines(stream, feds), emit))
  }

  /** One more foreign message first changes nothing for the batch, unless it ends the connection. */
  lemma OtherFirst(open: Batches, stream: seq<Arrival>, emit: Option<Message>)
    requires stream != [] && stream[0].Other?
    requires Outcome(stream[1..], FeedAll(Feed(open, stream[0].m).0, stream[1..]).1, emit)
    ensures Outcome(stream, FeedAll(open, stream).1, emit)
  {
    var (next, fed) := Feed(open, stream[0].m);
    var rest := FeedAll(next, stream[1..]).1;
    if !fed.failed {
      assert ([fed] + rest)[1..] == rest;
      if CutShort(stream[1..], rest) { CutShortMore(stream, rest, fed); }
    }
  }

  lemma MineFirst(open: Batches, stream: seq<Arrival>, emit: Option<Message>)
    requires stream != [] && stream[0].Mine? && Feed(open, stream[0].m).1 == Fed(None, true, false)
    requires Outcome(stream[1..], FeedAll(Feed(open, stream[0].m).0, stream[1..]).1, emit)
    ensures Outcome(stream, FeedAll(open, stream).1, emit)
  {
    var (next, fed) := Feed(open, stream[0].m);
    var rest := FeedAll(next, stream[1..]).1;
    assert ([fed] + rest)[1..] == rest;
    if CutShort(stream[1..], rest) {
      CutShortMore(stream, rest, fed);
    } else {
      QuietlyMore(Mines(stream[1..], rest), emit);
    }
  }

  lemma {:induction false} NoneLeft(open: Batches, stream: seq<Arrival>, batch: string)
    requires Delivers(stream, batch, [])
    ensures var feds := FeedAll(open, stream).1;
            CutShort(stream, feds) || (|feds| == |stream| && Mines(stream, feds) == [])
    decreases |stream|
  {
    if stream != [] {
      var (next, fed) := Feed(open, stream[0].m);
      var rest := FeedAll(next, stream[1..]).1;
      NoneLeft(next, stream[1..], batch);
      assert ([fed] + rest)[1..] == rest;
      if !fed.failed && CutShort(stream[1..], rest) { CutShortMore(stream, rest, fed); }
    }
  }

  /** A line of the batch as relayed, added to it. */
  function WithLine(a: Accum, m: Message, line: string): Accum {
    a.(command := if a.first then "PRIVMSG" else a.command,
       prefix := if a.first && a.prefix.None? then m.prefix else a.prefix,
       first := false, body := a.body + (if a.first then "" else "\n") + line, lines := a.lines + 1)
  }

  lemma LineFed(open: Batches, batch: string, a: Accum, m: Message, target: string, line: string)
    requires batch != "" && Slot(open, batch) == Some(a) && Carries(m, Line(batch, target, line))
    requires a.lines < MAX_LINES && |WithLine(a, m, line).body| <= MAX_BYTES
    ensures Feed(open, m).1 == Fed(None, true, false)
    ensures Slot(Feed(open, m).0, batch) == Some(WithLine(a, m, line))
  {
    assert Trailing(m) == line && BatchTag(m) == batch;
  }

  lemma CloseFed(open: Batches, batch: string, a: Accum, m: Message)
    requires Slot(open, batch) == Some(a) && Carries(m, Closing(batch))
    ensures Feed(open, m).1 == Fed(Build(a), true, false)
  {
    assert m.params[0] == "-" + batch && m.params[0][1..] == batch && "-" <= m.params[0];
  }

  /** What the close of a batch yields: nothing if it had no line. */
  function Yield(empty: bool, tags: Tags, prefix: Option<string>, target: string, body: string): Option<Message> {
    if empty then None else Some(Message(tags, prefix, "PRIVMSG", [target, body]))
  }

  lemma MineLast(open: Batches, stream: seq<Arrival>, rest: seq<Fed>, emit: Option<Message>)
    requires stream != [] && stream[0].Mine? && Feed(open, stream[0].m).1 == Fed(emit, true, false)
    requires rest == FeedAll(Feed(open, stream[0].m).0, stream[1..]).1
    requires CutShort(stream[1..], rest) || (|rest| == |stream| - 1 && Mines(stream[1..], rest) == [])
    ensures Outcome(stream, FeedAll(open, stream).1, emit)
  {
    var fed := Feed(open, stream[0].m).1;
    assert ([fed] + rest)[1..] == rest;
    if CutShort(stream[1..], rest) {
      CutShortMore(stream, rest, fed);
    } else {
      assert Mines(stream, [fed] + rest) == [fed];
    }
  }

  lemma CloseYields(open: Batches, stream: seq<Arrival>, batch: string, a: Accum)
    requires Slot(open, batch) == Some(a) && stream != [] && stream[0].Mine? && Delivers(stream, batch, [Closing(batch)])
    requires a.command == if a.first then "" else "PRIVMSG"
    ensures Outcome(stream, FeedAll(open, stream).1, Yield(a.first, a.tags, a.prefix, a.target, a.body))
  {
    CloseFed(open, batch, a, stream[0].m);
    assert [Closing(batch)][1..] == [];
    var next := Feed(open, stream[0].m).0;
    NoneLeft(next, stream[1..], batch);
    MineLast(open, stream, FeedAll(next, stream[1..]).1, Build(a));
  }

  /** From an open batch on: the remaining lines are taken and the close yields the whole message, whatever else arrives
      in between. */
  lemma {:induction false} RestFed(open: Batches, stream: seq<Arrival>, batch: string, target: string, lines: seq<string>,
                                   a: Accum)
    returns (prefix: Option<string>)
    requires batch != "" && Slot(open, batch) == Some(a) && Delivers(stream, batch, Lines(batch, target, lines) + [Closing(batch)])
    requires a.lines + |lines| <= MAX_LINES && |Grown(a.body, a.first, lines)| <= MAX_BYTES
    requires a.command == if a.first then "" else "PRIVMSG"
    ensures Outcome(stream, FeedAll(open, stream).1,
                    Yield(a.first && lines == [], a.tags, prefix, a.target, Grown(a.body, a.first, lines)))
    decreases |stream|
  {
    var sent := Lines(batch, target, lines) + [Closing(batch)];
    var m := stream[0].m;
    var next := Feed(open, m).0;
    if stream[0].Other? {
      ForeignKeeps(open, m, batch);
      prefix := RestFed(next, stream[1..], batch, target, lines, a);
      OtherFirst(open, stream, Yield(a.first && lines == [], a.tags, prefix, a.target, Grown(a.body, a.first, lines)));
    } else if lines == [] {
      assert sent == [Closing(batch)];
      CloseYields(open, stream, batch, a);
      prefix := a.prefix;
    } else {
      assert sent[0] == Line(batch, target, lines[0]) && sent[1..] == Lines(batch, target, lines[1..]) + [Closing(batch)];
      GrownLonger(a.body + (if a.first then "" else "\n") + lines[0], false, lines[1..]);
      LineFed(open, batch, a, m, target, lines[0]);
      var b := WithLine(a, m, lines[0]);
      prefix := RestFed(next, stream[1..], batch, target, lines[1..], b);
      MineFirst(open, stream, Yield(false, a.tags, prefix, a.target, Grown(b.body, false, lines[1..])));
    }
  }

  lemma OpenFed(open: Batches, batch: string, target: string, m: Message)
    requires Carries(m, Opening(batch, target)) && |open| < MAX_OPEN
    ensures Feed(open, m).1 == Fed(None, true, false)
    ensures Slot(Feed(open, m).0, batch) == Some(Accum(target, "", m.prefix, m.tags, "", true, 0))
  {
    assert m.params == ["+" + batch, "draft/multiline", target] && m.params[0][1..] == batch && "+" <= m.params[0];
  }

  /** A whole batch, from its opening. */
  lemma BatchFed(open: Batches, stream: seq<Arrival>, batch: string, target: string, lines: seq<string>, sent: seq<Message>)
    returns (prefix: Option<string>)
    requires sent == [Opening(batch, target)] + (Lines(batch, target, lines) + [Closing(batch)]) && batch != ""
    requires Delivers(stream, batch, sent) && stream != [] && stream[0].Mine? && |open| < MAX_OPEN
    requires |lines| <= MAX_LINES && |Join(lines, '\n')| <= MAX_BYTES
    ensures Outcome(stream, FeedAll(open, stream).1,
                    Yield(lines == [], stream[0].m.tags, prefix, target, Join(lines, '\n')))
  {
    var m := stream[0].m;
    assert sent[0] == Opening(batch, target) && sent[1..] == Lines(batch, target, lines) + [Closing(batch)];
    OpenFed(open, batch, target, m);
    GrownFromStart(lines);
    var a := Accum(target, "", m.prefix, m.tags, "", true, 0);
    prefix := RestFed(Feed(open, m).0, stream[1..], batch, target, lines, a);
    MineFirst(open, stream, Yield(lines == [], m.tags, prefix, target, Join(lines, '\n')));
  }

  /** A text split into lines, sent as a batch and received interleaved with messages of other batches: within the line
      and byte ceilings its own messages yield nothing but, at the close, exactly one message to the target whose body is
      the text, normalized; a text of newlines only yields none.  Only a foreign message over a ceiling of its own batch
      can end the connection first. */
  lemma TextSurvivesRoundTrip(open: Batches, stream: seq<Arrival>, batch: string, target: string, text: string,
                              lines: seq<string>, sent: seq<Message>)
    returns (prefix: Option<string>)
    requires lines == DropTrailingEmpty(Split(UnixNewlines(text), '\n')) && batch != ""
    requires sent == [Opening(batch, target)] + Lines(batch, target, lines) + [Closing(batch)]
    requires Delivers(stream, batch, sent) && stream != [] && stream[0].Mine? && |open| < MAX_OPEN
    requires |lines| <= MAX_LINES && |Normalized(text)| <= MAX_BYTES
    ensures Outcome(stream, FeedAll(open, stream).1,
                    Yield(lines == [], stream[0].m.tags, prefix, target, Normalized(text)))
  {
    LinesJoinToText(text);
    assert sent == [Opening(batch, target)] + (Lines(batch, target, lines) + [Closing(batch)]);
    prefix := BatchFed(open, stream, batch, target, lines, sent);
  }
}
