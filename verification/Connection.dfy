// One client connection: startup, then request by request until the client
// leaves.
module Connections {
  import opened Prelude
  import opened Bytes
  import opened Messages
  import opened MessageDecoder
  import opened Replies
  import opened BufferReaders
  import opened ProtocolHandler

  // The rest of the system: the answer to the n-th query, and the text of the
  // exception for a failed read.
  datatype Backend = Backend(answer: (nat, seq<byte>) -> Answer, errorText: Failure -> seq<byte>)

  ghost predicate Sound(backend: Backend) {
    forall n, q :: backend.answer(n, q).Result? ==> Rectangular(backend.answer(n, q).table)
  }

  function Status(key: string, value: string): Message {
    ParameterStatus(Ascii(key), Ascii(value))
  }

  function StartupMessages(): seq<Message> {
    [Authentication] + [Status("server_version", "14")] + [Status("server_encoding", "UTF8")] +
    [Status("client_encoding", "UTF8")] + [Status("DateStyle", "IOS, DMY")] + [ReadyForQuery]
  }

  // How a request ends: normally or in an exception.
  datatype Exception = ClientException | OtherException(text: seq<byte>) | UndefinedBehaviour

  function Flatten(replies: seq<seq<Message>>): seq<Message> {
    if replies == [] then [] else Flatten(replies[..|replies| - 1]) + replies[|replies| - 1]
  }

  function QueryText(body: seq<byte>): seq<byte>
    requires HasBody(body)
  {
    body[4..4 + BodySize(body) - 1]
  }

  function AfterBody(body: seq<byte>): seq<byte>
    requires HasBody(body)
  {
    body[4 + BodySize(body)..]
  }

  lemma FourParts(s: seq<byte>, a: seq<byte>, b: seq<byte>, c: seq<byte>, d: seq<byte>, whole: seq<byte>)
    requires whole == a + b + (c + d)
    ensures s + a + b + c + d == s + whole
  {
  }

  lemma DescriptionBody(cs: seq<Column>)
    ensures Body(RowDescription(cs)) == Put16(|cs|) + JoinEach(OneColumn, cs)
  {
  }

  lemma DescriptionLength(cs: seq<Column>)
    ensures LengthField(RowDescription(cs)) == 4 + 2 + |cs| * 19 + NameSum(cs)
  {
  }

  lemma EncodingOf(m: Message, tag: byte, length: nat, body: seq<byte>)
    requires Tag(m) == tag && LengthField(m) == length && Body(m) == body
    ensures Encode(m) == [tag] + Put32(length) + body
  {
  }

  lemma DescriptionEncoding(cs: seq<Column>, length: nat)
    requires length == LengthField(RowDescription(cs))
    ensures Encode(RowDescription(cs)) == [84] + Put32(length) + (Put16(|cs|) + JoinEach(OneColumn, cs))
  {
    DescriptionBody(cs);
    EncodingOf(RowDescription(cs), 84, length, Body(RowDescription(cs)));
  }

  lemma DescriptionWhole(s: seq<byte>, cs: seq<Column>, length: nat)
    requires length == 4 + 2 + |cs| * 19 + NameSum(cs)
    ensures s + [84] + Put32(length) + Put16(|cs|) + JoinEach(OneColumn, cs) == s + Encode(RowDescription(cs))
  {
    DescriptionLength(cs);
    DescriptionEncoding(cs, length);
    FourParts(s, [84], Put32(length), Put16(|cs|), JoinEach(OneColumn, cs), Encode(RowDescription(cs)));
  }

  lemma ErrorWhole(s: seq<byte>, text: seq<byte>)
    ensures s + Encode(ErrorResponse([Field(77, text)])) + Encode(ReadyForQuery) == s + EncodeAll(ErrorReply(text))
  {
    var m := ErrorResponse([Field(77, text)]);
    JoinEachAppend(Encode, [m], ReadyForQuery);
    JoinEachOne(Encode, m);
    assert ErrorReply(text) == [m] + [ReadyForQuery];
    Two(s, Encode(m), Encode(ReadyForQuery));
  }

  lemma ResultWhole(s: seq<byte>, t: Table)
    ensures s + EncodeAll(Description(t.columns)) +
            EncodeAll(RowMessages(t.blocks) + [CommandComplete(CompletionText(t))]) + Encode(ReadyForQuery) ==
            s + EncodeAll(Reply(Result(t)))
  {
    var description, result := Description(t.columns), RowMessages(t.blocks) + [CommandComplete(CompletionText(t))];
    JoinEachConcat(Encode, description, result);
    JoinEachAppend(Encode, description + result, ReadyForQuery);
    assert Reply(Result(t)) == description + result + [ReadyForQuery];
    Three(s, EncodeAll(description), EncodeAll(result), Encode(ReadyForQuery));
  }

  lemma Sending(s: seq<byte>, ms: seq<Message>, m: Message)
    ensures s + EncodeAll(ms) + Encode(m) == s + EncodeAll(ms + [m])
  {
    JoinEachAppend(Encode, ms, m);
    Two(s, EncodeAll(ms), Encode(m));
  }

  // The bytes begin with a simple query.
  predicate IsQuery(bs: seq<byte>) {
    bs != [] && bs[0] == 81 && HasBody(bs[1..])
  }

  // A query whose length field leaves no room for the terminator: what the
  // server does with it is undefined.
  predicate UndefinedRequest(bs: seq<byte>) {
    |bs| >= 5 && bs[0] == 81 && BodySize(bs[1..]) == 0
  }

  // Whether serving these bytes comes to such a query. Only queries have their
  // bodies read; a client that closes inside one is served no further.
  predicate Reaches(bs: seq<byte>)
    decreases |bs|
  {
    if bs == [] || bs[0] == 88 then false
    else if bs[0] != 81 then Reaches(bs[1..])
    else if |bs| < 5 then false
    else UndefinedRequest(bs) || (BodySize(bs[1..]) <= |bs| - 5 && Reaches(bs[1..][4 + BodySize(bs[1..])..]))
  }

  lemma {:induction false} TooShort(bs: seq<byte>)
    requires |bs| < 4
    ensures !Reaches(bs)
    decreases |bs|
  {
    if bs != [] { TooShort(bs[1..]); }
  }

  predicate Truncated(body: seq<byte>) {
    |body| < 4 || BodySize(body) > |body| - 4
  }

  // A query that is not undefined decides nothing about the ones after it.
  lemma ReachesAfter(bs: seq<byte>, rest: seq<byte>)
    requires bs != [] && bs[0] == 81 && BodyGone(bs[1..], rest)
    ensures Reaches(bs) <==> UndefinedRequest(bs) || Reaches(rest)
  {
    if |bs| < 5 {
      TooShort(rest);
    } else if BodySize(bs[1..]) > |bs| - 5 {
      TooShort(rest);
    }
  }

  // ------------------------------------------------------------ what is answered

  // A request's reply, if any, the queries executed by then and what is left to read.
  datatype Response = Response(reply: seq<Message>, queries: nat, rest: seq<byte>)

  // The server drops these without reading their bodies.
  predicate Ignored(c: byte) {
    c as char in {'B', 'D', 'E', 'P', 'S'}
  }

  // The query's body has arrived and is not undefined.
  predicate Answerable(body: seq<byte>) {
    !Truncated(body) && BodySize(body) > 0
  }

  // The n-th query: its answer, or an error when its text has no terminator.
  function QueryResponse(backend: Backend, body: seq<byte>, n: nat): Response
    requires Answerable(body)
  {
    var size := BodySize(body);
    if body[4 + size - 1] == 0 then
      Response(Reply(backend.answer(n, body[4..4 + size - 1])), n + 1, body[4 + size..])
    else
      Response(ErrorReply(backend.errorText(NetworkError)), n, body[4 + size..])
  }

  // A request other than a farewell.
  predicate Decided(bs: seq<byte>) {
    bs != [] && bs[0] as char != 'X' && (bs[0] as char == 'Q' ==> Answerable(bs[1..]))
  }

  function Respond(backend: Backend, bs: seq<byte>, n: nat): Response
    requires Decided(bs)
  {
    if bs[0] as char == 'Q' then QueryResponse(backend, bs[1..], n)
    else if Ignored(bs[0]) then Response([], n, bs[1..])
    else Response(ErrorReply(Ascii("Unknown PG command type")), n, bs[1..])
  }

  // The replies to everything a client sends until it leaves.
  function Session(backend: Backend, bs: seq<byte>, n: nat): seq<seq<Message>>
    decreases |bs|
  {
    if !Decided(bs) then []
    else
      var r := Respond(backend, bs, n);
      Extended([], r.reply) + Session(backend, r.rest, r.queries)
  }

  // The client does not close in the middle of a query.
  predicate Complete(bs: seq<byte>)
    decreases |bs|
  {
    if bs == [] || bs[0] as char == 'X' then true
    else if bs[0] as char != 'Q' then Complete(bs[1..])
    else !Truncated(bs[1..]) && (BodySize(bs[1..]) > 0 ==> Complete(bs[1..][4 + BodySize(bs[1..])..]))
  }

  // An exception that is not the client leaving is answered with its text.
  predicate Gives(e: Option<Exception>, reply: seq<Message>, n: nat, rest: seq<byte>, r: Response) {
    && (e.None? || e.value.OtherException?)
    && Response(if e.None? then reply else ErrorReply(e.value.text), n, rest) == r
  }

  lemma AnswerableQuery(body: seq<byte>)
    ensures HasBody(body) <==> Answerable(body) && body[4 + BodySize(body) - 1] == 0
    ensures HasBody(body) ==> QueryText(body) == body[4..4 + BodySize(body) - 1]
  {
  }

  // One request neither hides nor invents an undefined one further on.
  predicate Progress(before: seq<byte>, e: Option<Exception>, terminate: bool, after: seq<byte>) {
    && (e == Some(ClientException) ==> !Reaches(before))
    && (Reaches(before) <==> UndefinedRequest(before) || (!terminate && Reaches(after)))
  }

  lemma QueryProgress(before: seq<byte>, e: Option<Exception>, after: seq<byte>)
    requires before != [] && before[0] == 81 && BodyGone(before[1..], after)
    requires e == Some(ClientException) ==> Truncated(before[1..])
    ensures Progress(before, e, false, after)
  {
    ReachesAfter(before, after);
  }

  // ------------------------------------------------------------ what clients send

  // A request for encryption, and a startup packet.
  function EncryptionRequest(): seq<byte> {
    Put32(8) + Put32(80877103)
  }

  function StartupPacket(version: nat, body: seq<byte>): seq<byte> {
    Put32(8 + |body|) + Put32(version) + body
  }

  lemma HeaderParses(length: seq<byte>, version: seq<byte>, rest: seq<byte>)
    requires |length| == |version| == 4
    ensures var bs := length + version + rest; bs[..4] == length && bs[4..8] == version && bs[8..] == rest
  {
  }

  lemma StartupAlone(version: nat, body: seq<byte>, rest: seq<byte>)
    requires version < U32_LIMIT && version != 80877103 && 8 + |body| < U32_LIMIT
    ensures ParseStartup(StartupPacket(version, body) + rest) == Some(Startup(0, |body|, body + rest))
  {
    assert StartupPacket(version, body) + rest == Put32(8 + |body|) + Put32(version) + (body + rest);
    HeaderParses(Put32(8 + |body|), Put32(version), body + rest);
    InWidth32(8 + |body|);
    InWidth32(version);
  }

  lemma EncryptionFirst(rest: seq<byte>, p: Startup)
    requires ParseStartup(rest) == Some(p)
    ensures ParseStartup(EncryptionRequest() + rest) == Some(p.(refused := p.refused + 1))
  {
    HeaderParses(Put32(8), Put32(80877103), rest);
    InWidth32(80877103);
  }

  // A client that asks for encryption n times and then starts up is refused n
  // times, and its requests begin after the startup body.
  lemma {:induction false} StartupParses(n: nat, version: nat, body: seq<byte>, rest: seq<byte>)
    requires version < U32_LIMIT && version != 80877103 && 8 + |body| < U32_LIMIT
    ensures var bs := Repeated(EncryptionRequest(), n) + (StartupPacket(version, body) + rest);
            ParseStartup(bs) == Some(Startup(n, |body|, body + rest)) && Startable(bs) && Requests(bs) == rest
  {
    var packet := StartupPacket(version, body) + rest;
    if n == 0 {
      assert [] + packet == packet;
      StartupAlone(version, body, rest);
    } else {
      var more := Repeated(EncryptionRequest(), n - 1) + packet;
      StartupParses(n - 1, version, body, rest);
      EncryptionFirst(more, Startup(n - 1, |body|, body + rest));
      Two(EncryptionRequest(), Repeated(EncryptionRequest(), n - 1), packet);
    }
    assert (body + rest)[|body|..] == rest;
  }

  function Repeated(bs: seq<byte>, n: nat): seq<byte> {
    if n == 0 then [] else bs + Repeated(bs, n - 1)
  }

  // Each refusal is one byte, 'N'.
  lemma RefusalsAre(n: nat, i: nat)
    requires i < n
    ensures |Refusals(n)| == n && Refusals(n)[i] as char == 'N'
  {
  }

  // The startup messages, with their texts byte by byte.
  lemma StartupMessagesAre()
    ensures StartupMessages() ==
            [Authentication,
             ParameterStatus([115, 101, 114, 118, 101, 114, 95, 118, 101, 114, 115, 105, 111, 110], [49, 52]),
             ParameterStatus(
               [115, 101, 114, 118, 101, 114, 95, 101, 110, 99, 111, 100, 105, 110, 103], [85, 84, 70, 56]),
             ParameterStatus(
               [99, 108, 105, 101, 110, 116, 95, 101, 110, 99, 111, 100, 105, 110, 103], [85, 84, 70, 56]),
             ParameterStatus([68, 97, 116, 101, 83, 116, 121, 108, 101], [73, 79, 83, 44, 32, 68, 77, 89]),
             ReadyForQuery]
  {
    VersionText();
    ServerEncodingText();
    ClientEncodingText();
    DateText();
  }

  lemma VersionText()
    ensures Status("server_version", "14") ==
            ParameterStatus([115, 101, 114, 118, 101, 114, 95, 118, 101, 114, 115, 105, 111, 110], [49, 52])
  {
  }

  lemma ServerEncodingText()
    ensures Status("server_encoding", "UTF8") ==
            ParameterStatus([115, 101, 114, 118, 101, 114, 95, 101, 110, 99, 111, 100, 105, 110, 103], [85, 84, 70, 56])
  {
  }

  lemma ClientEncodingText()
    ensures Status("client_encoding", "UTF8") ==
            ParameterStatus([99, 108, 105, 101, 110, 116, 95, 101, 110, 99, 111, 100, 105, 110, 103], [85, 84, 70, 56])
  {
  }

  lemma DateText()
    ensures Status("DateStyle", "IOS, DMY") ==
            ParameterStatus([68, 97, 116, 101, 83, 116, 121, 108, 101], [73, 79, 83, 44, 32, 68, 77, 89])
  {
  }

  function QueryBytes(q: seq<byte>): seq<byte> {
    [81] + Put32(|q| + 5) + q + [0]
  }

  // A client that sends simple queries and then says goodbye or just closes.
  datatype Script = Script(queries: seq<seq<byte>>, farewell: bool)

  function Farewell(script: Script): seq<byte> {
    if script.farewell then [88] + Put32(4) else []
  }

  // Its bytes from the i-th query on.
  function ScriptBytes(script: Script, i: nat): seq<byte>
    requires i <= |script.queries|
  {
    JoinEach(QueryBytes, script.queries[i..]) + Farewell(script)
  }

  predicate Sendable(script: Script) {
    forall i :: 0 <= i < |script.queries| ==> |script.queries[i]| + 5 < U32_LIMIT
  }

  function Answers(backend: Backend, qs: seq<seq<byte>>): (rs: seq<seq<Message>>)
    ensures |rs| == |qs| && forall i :: 0 <= i < |qs| ==> rs[i] == Reply(backend.answer(i, qs[i]))
  {
    seq(|qs|, i requires 0 <= i < |qs| => Reply(backend.answer(i, qs[i])))
  }

  lemma BodyParses(length: seq<byte>, q: seq<byte>, rest: seq<byte>)
    requires |length| == 4 && Get32(length) == |q| + 5
    ensures var body := length + q + [0] + rest; HasBody(body) && QueryText(body) == q && AfterBody(body) == rest
  {
    var body := length + q + [0] + rest;
    assert body[..4] == length && BodySize(body) == |q| + 1;
  }

  // A query's bytes are read back as that query.
  lemma QueryParses(q: seq<byte>, rest: seq<byte>)
    requires |q| + 5 < U32_LIMIT
    ensures var bs := QueryBytes(q) + rest; IsQuery(bs) && QueryText(bs[1..]) == q && AfterBody(bs[1..]) == rest
  {
    InWidth32(|q| + 5);
    BodyParses(Put32(|q| + 5), q, rest);
    assert (QueryBytes(q) + rest)[1..] == Put32(|q| + 5) + q + [0] + rest;
  }

  lemma NextOfScript(script: Script, i: nat)
    requires Sendable(script) && i <= |script.queries|
    ensures var bs := ScriptBytes(script, i);
            if i < |script.queries| then
              IsQuery(bs) && QueryText(bs[1..]) == script.queries[i] && AfterBody(bs[1..]) == ScriptBytes(script, i + 1)
            else bs == [] || bs[0] == 88
  {
    var qs := script.queries[i..];
    if i < |script.queries| {
      JoinEachFirst(QueryBytes, qs);
      assert qs[1..] == script.queries[i + 1..];
      var rest := ScriptBytes(script, i + 1);
      Two(QueryBytes(qs[0]), JoinEach(QueryBytes, qs[1..]), Farewell(script));
      QueryParses(qs[0], rest);
    } else {
      assert qs == [] && JoinEach(QueryBytes, []) + Farewell(script) == Farewell(script);
    }
  }

  ghost predicate AllReplies(replies: seq<seq<Message>>) {
    forall i :: 0 <= i < |replies| ==> IsReply(replies[i])
  }

  lemma Sent(s: seq<byte>, replies: seq<seq<Message>>, reply: seq<Message>)
    ensures s + EncodeAll(Flatten(replies)) + EncodeAll(reply) == s + EncodeAll(Flatten(replies + [reply]))
    ensures reply == [] ==> s + EncodeAll(Flatten(replies)) + EncodeAll(reply) == s + EncodeAll(Flatten(replies))
  {
    assert (replies + [reply])[..|replies|] == replies;
    JoinEachConcat(Encode, Flatten(replies), reply);
    Two(s, EncodeAll(Flatten(replies)), EncodeAll(reply));
  }

  function Extended(replies: seq<seq<Message>>, reply: seq<Message>): seq<seq<Message>> {
    if reply == [] then replies else replies + [reply]
  }

  lemma ExtendedReplies(replies: seq<seq<Message>>, reply: seq<Message>)
    requires AllReplies(replies) && (reply == [] || IsReply(reply))
    ensures AllReplies(Extended(replies, reply))
  {
  }

  lemma RoundSent(s: seq<byte>, replies: seq<seq<Message>>, reply: seq<Message>)
    ensures s + EncodeAll(Flatten(replies)) + EncodeAll(reply) == s + EncodeAll(Flatten(Extended(replies, reply)))
  {
    Sent(s, replies, reply);
  }

  // What the client makes of a delivered stream: after the refusals, exactly
  // the messages sent.
  lemma ClientSees(refused: nat, ms: seq<Message>)
    requires AllFit(ms)
    ensures var socket := Refusals(refused) + EncodeAll(ms);
            && Unframe(socket[refused..]) == Some(Packets(ms))
            && ((forall i :: 0 <= i < |ms| ==> Readable(ms[i])) ==> Decode(socket[refused..]) == Some(ms))
  {
    var socket := Refusals(refused) + EncodeAll(ms);
    assert socket[refused..] == EncodeAll(ms);
    UnframeEncodeAll(ms);
    if forall i :: 0 <= i < |ms| ==> Readable(ms[i]) { DecodeEncodeAll(ms); }
  }

  lemma Conversation(refused: nat, replies: seq<seq<Message>>)
    ensures var ms := StartupMessages() + Flatten(replies);
            && Refusals(refused) + EncodeAll(StartupMessages()) + EncodeAll(Flatten(replies)) ==
               Refusals(refused) + EncodeAll(ms)
            && (AllFit(ms) ==> Unframe((Refusals(refused) + EncodeAll(ms))[refused..]) == Some(Packets(ms)))
            && (AllFit(ms) && (forall i :: 0 <= i < |ms| ==> Readable(ms[i])) ==>
                  Decode((Refusals(refused) + EncodeAll(ms))[refused..]) == Some(ms))
  {
    JoinEachConcat(Encode, StartupMessages(), Flatten(replies));
    Two(Refusals(refused), EncodeAll(StartupMessages()), EncodeAll(Flatten(replies)));
    if AllFit(StartupMessages() + Flatten(replies)) { ClientSees(refused, StartupMessages() + Flatten(replies)); }
  }

  // The input has a whole startup packet, and what follows it.
  predicate Startable(input: seq<byte>) {
    var p := ParseStartup(input);
    p.Some? && p.value.bodySize <= |p.value.rest|
  }

  function Requests(input: seq<byte>): seq<byte>
    requires Startable(input)
  {
    var p := ParseStartup(input).value;
    p.rest[p.bodySize..]
  }

  // No query of a script is the undefined one.
  lemma {:induction false} ScriptDefined(script: Script, i: nat)
    requires Sendable(script) && i <= |script.queries|
    ensures !Reaches(ScriptBytes(script, i))
    decreases |script.queries| - i
  {
    NextOfScript(script, i);
    if i < |script.queries| {
      ScriptDefined(script, i + 1);
      ReachesAfter(ScriptBytes(script, i), ScriptBytes(script, i + 1));
    }
  }

  // What one round does with what is left to read.
  predicate Served(backend: Backend, before: seq<byte>, n: nat, stop: bool, reply: seq<Message>,
                   terminate: bool, terminate': bool, n': nat, after: seq<byte>) {
    && (before == [] || UndefinedRequest(before) ==> stop && reply == [])
    && (before != [] && before[0] as char == 'X' ==> !stop && terminate' && n' == n && reply == [])
    && (Decided(before) ==>
          !stop && terminate' == terminate && Response(reply, n', after) == Respond(backend, before, n))
  }

  lemma Appended(replies: seq<seq<Message>>, reply: seq<Message>, rest: seq<seq<Message>>)
    ensures Extended(replies, reply) + rest == replies + (Extended([], reply) + rest)
  {
  }

  // One round of a session.
  lemma SessionRound(backend: Backend, replies: seq<seq<Message>>, before: seq<byte>, n: nat, stop: bool,
                     reply: seq<Message>, terminate: bool, n': nat, after: seq<byte>)
    requires Complete(before) && Served(backend, before, n, stop, reply, false, terminate, n', after)
    ensures !stop && !terminate ==> Complete(after)
    ensures replies + Session(backend, before, n) ==
            Extended(replies, reply) + if stop || terminate then [] else Session(backend, after, n')
  {
    if Decided(before) { Appended(replies, reply, Session(backend, after, n')); }
  }

  lemma QueryStep(backend: Backend, bs: seq<byte>, q: seq<byte>, rest: seq<byte>, n: nat)
    requires IsQuery(bs) && QueryText(bs[1..]) == q && AfterBody(bs[1..]) == rest
    ensures Decided(bs) && Respond(backend, bs, n) == Response(Reply(backend.answer(n, q)), n + 1, rest)
    ensures Complete(rest) ==> Complete(bs)
  {
    AnswerableQuery(bs[1..]);
  }

  lemma SessionStep(backend: Backend, bs: seq<byte>, q: seq<byte>, rest: seq<byte>, n: nat)
    requires IsQuery(bs) && QueryText(bs[1..]) == q && AfterBody(bs[1..]) == rest && Complete(rest)
    ensures Complete(bs)
    ensures Session(backend, bs, n) == [Reply(backend.answer(n, q))] + Session(backend, rest, n + 1)
  {
    QueryStep(backend, bs, q, rest, n);
    NonEmptyReply(backend.answer(n, q));
    assert Extended([], Reply(backend.answer(n, q))) == [Reply(backend.answer(n, q))];
  }

  lemma SessionEnd(backend: Backend, bs: seq<byte>, n: nat)
    requires bs == [] || bs[0] == 88
    ensures Complete(bs) && Session(backend, bs, n) == []
  {
  }

  lemma AnswersFrom(backend: Backend, qs: seq<seq<byte>>, i: nat)
    requires i < |qs|
    ensures Answers(backend, qs)[i..] == [Reply(backend.answer(i, qs[i]))] + Answers(backend, qs)[i + 1..]
  {
  }

  // A script of simple queries gets exactly their answers, in order.
  lemma {:induction false} ScriptSession(backend: Backend, script: Script, i: nat)
    requires Sendable(script) && i <= |script.queries|
    ensures Complete(ScriptBytes(script, i))
    ensures Session(backend, ScriptBytes(script, i), i) == Answers(backend, script.queries)[i..]
    decreases |script.queries| - i
  {
    var bs := ScriptBytes(script, i);
    NextOfScript(script, i);
    if i < |script.queries| {
      ScriptSession(backend, script, i + 1);
      SessionStep(backend, bs, script.queries[i], ScriptBytes(script, i + 1), i);
      AnswersFrom(backend, script.queries, i);
    } else {
      SessionEnd(backend, bs, i);
    }
  }

  lemma NonEmptyReply(a: Answer)
    ensures Reply(a) != []
  {
  }

  // ---------------------------------------------------- table descriptions

  method NameLengths(cs: seq<Column>) returns (sum: nat)
    ensures sum == NameSum(cs)
  {
    sum := 0;
    for i := 0 to |cs|
      invariant sum == NameSum(cs[..i])
    {
      assert cs[..i + 1][..i] == cs[..i];
      sum := sum + |cs[i].name|;
    }
    assert cs[..|cs|] == cs;
  }

  method SendDescriptions(handler: PGProtocolHandler, cs: seq<Column>)
    requires handler.Valid()
    modifies handler.writer, handler.writer.data
    ensures handler.Valid() && handler.writer.stream == old(handler.writer.stream) + JoinEach(OneColumn, cs)
  {
    for i := 0 to |cs|
      invariant handler.Valid() && handler.writer.stream == old(handler.writer.stream) + JoinEach(OneColumn, cs[..i])
    {
      handler.SendDescription(cs[i]);
      JoinEachUpTo(OneColumn, cs, i);
      Two(old(handler.writer.stream), JoinEach(OneColumn, cs[..i]), OneColumn(cs[i]));
    }
    assert cs[..|cs|] == cs;
  }

  method SendRowDescription(handler: PGProtocolHandler, cs: seq<Column>, columnNameLengthSum: nat)
    requires handler.Valid() && columnNameLengthSum == NameSum(cs)
    modifies handler.writer, handler.writer.data
    ensures handler.Valid() && handler.writer.stream == old(handler.writer.stream) + Encode(RowDescription(cs))
  {
    var messageSize := handler.SendDescriptionHeader(columnNameLengthSum, |cs|);
    SendDescriptions(handler, cs);
    DescriptionWhole(old(handler.writer.stream), cs, messageSize);
  }

  class Connection {
    const handler: PGProtocolHandler
    const backend: Backend
    var terminate: bool
    var queries: nat

    constructor (input: seq<byte>, backend: Backend)
      requires Sound(backend)
      ensures Valid() && fresh(Repr()) && handler.reader.pending == input && handler.writer.stream == []
      ensures handler.writer.Size() == 0 && !terminate && queries == 0 && this.backend == backend
    {
      handler := new PGProtocolHandler(input);
      this.backend, terminate, queries := backend, false, 0;
    }

    ghost function Repr(): set<object> {
      {handler.reader, handler.reader.data, handler.writer, handler.writer.data}
    }

    ghost predicate Valid()
      reads this, handler, Repr()
    {
      handler.Valid() && Sound(backend)
    }

    // Sends a description unless there are no column names.
    method SendTableDescription(columns: seq<ResultColumn>)
      requires Valid()
      modifies handler.writer, handler.writer.data
      ensures Valid() && handler.writer.stream == old(handler.writer.stream) + EncodeAll(Description(columns))
    {
      var descriptions := DescribeAll(columns);
      var columnNameLengthSum := NameLengths(descriptions);
      if columnNameLengthSum % U32_LIMIT == 0 {
        return;
      }
      SendRowDescription(handler, descriptions, columnNameLengthSum);
      JoinEachOne(Encode, RowDescription(descriptions));
    }

    method RowValues(row: Row) returns (values: seq<Value>, stringLengthSum: nat)
      ensures values == Values(row) && stringLengthSum == ValueSum(values)
    {
      values, stringLengthSum := [], 0;
      for i := 0 to |row|
        invariant values == Values(row)[..i] && stringLengthSum == ValueSum(values)
      {
        assert (values + [Some(row[i])])[..i] == values;
        values, stringLengthSum := values + [Some(row[i])], stringLengthSum + |row[i]|;
      }
    }

    method SendRow(row: Row)
      requires Valid()
      modifies handler.writer, handler.writer.data
      ensures Valid() && handler.writer.stream == old(handler.writer.stream) + Encode(DataRow(Values(row)))
    {
      var values, stringLengthSum := RowValues(row);
      handler.SendData(values, stringLengthSum);
    }

    method SendBlock(rows: seq<Row>)
      requires Valid()
      modifies handler.writer, handler.writer.data
      ensures Valid() && handler.writer.stream == old(handler.writer.stream) + EncodeAll(BlockMessages(rows))
    {
      ghost var ms := BlockMessages(rows);
      for i := 0 to |rows|
        invariant Valid() && handler.writer.stream == old(handler.writer.stream) + EncodeAll(ms[..i])
      {
        SendRow(rows[i]);
        JoinEachUpTo(Encode, ms, i);
        Two(old(handler.writer.stream), EncodeAll(ms[..i]), Encode(ms[i]));
      }
      assert ms[..|rows|] == ms;
    }

    method SendRows(blocks: seq<seq<Row>>)
      requires Valid()
      modifies handler.writer, handler.writer.data
      ensures Valid() && handler.writer.stream == old(handler.writer.stream) + EncodeAll(RowMessages(blocks))
    {
      for i := 0 to |blocks|
        invariant Valid() && handler.writer.stream == old(handler.writer.stream) + EncodeAll(RowMessages(blocks[..i]))
      {
        SendBlock(blocks[i]);
        JoinEachConcat(Encode, RowMessages(blocks[..i]), BlockMessages(blocks[i]));
        assert blocks[..i + 1][..i] == blocks[..i];
        Two(old(handler.writer.stream), EncodeAll(RowMessages(blocks[..i])), EncodeAll(BlockMessages(blocks[i])));
      }
      assert blocks[..|blocks|] == blocks;
    }

    // The rows, then one completion.
    method SendQueryResponse(t: Table)
      requires Valid()
      modifies handler.writer, handler.writer.data
      ensures Valid()
      ensures handler.writer.stream ==
              old(handler.writer.stream) + EncodeAll(RowMessages(t.blocks) + [CommandComplete(CompletionText(t))])
    {
      SendRows(t.blocks);
      var text := CompletionText(t);
      handler.SendComplete(text);
      JoinEachAppend(Encode, RowMessages(t.blocks), CommandComplete(text));
      Two(old(handler.writer.stream), EncodeAll(RowMessages(t.blocks)), Encode(CommandComplete(text)));
    }

    // The reply to an answer that is not an exception.
    method SendReply(a: Answer)
      requires Valid() && !a.Thrown?
      modifies handler.writer, handler.writer.data
      ensures Valid() && handler.writer.stream == old(handler.writer.stream) + EncodeAll(Reply(a))
      ensures handler.writer.Size() == 0
    {
      match a {
        case Failed(text) =>
          SendError(text);
        case Result(t) =>
          SendTableDescription(t.columns);
          SendQueryResponse(t);
          handler.SendReadyForQuery();
          ResultWhole(old(handler.writer.stream), t);
      }
    }

    method SendError(text: seq<byte>)
      requires Valid()
      modifies handler.writer, handler.writer.data
      ensures Valid() && handler.writer.stream == old(handler.writer.stream) + EncodeAll(ErrorReply(text))
      ensures handler.writer.Size() == 0
    {
      handler.SendErrorResponse([Field(77, text)]);
      handler.SendReadyForQuery();
      ErrorWhole(old(handler.writer.stream), text);
    }

    // Reads and answers one query; an exception leaves nothing sent.
    method HandlerSimpleQuery() returns (e: Option<Exception>, ghost reply: seq<Message>)
      requires Valid() && handler.writer.Size() == 0
      modifies Repr(), `queries
      ensures Valid() && handler.writer.Size() == 0
      ensures handler.writer.stream == old(handler.writer.stream) + EncodeAll(reply)
      ensures if e.Some? then reply == [] else IsReply(reply)
      ensures Answerable(old(handler.reader.pending)) ==>
                Gives(e, reply, queries, handler.reader.pending,
                      QueryResponse(backend, old(handler.reader.pending), old(queries)))
      ensures |handler.reader.pending| <= |old(handler.reader.pending)|
      ensures BodyGone(old(handler.reader.pending), handler.reader.pending)
      ensures e == Some(UndefinedBehaviour) <==>
              |old(handler.reader.pending)| >= 4 && BodySize(old(handler.reader.pending)) == 0
      ensures e == Some(ClientException) ==> Truncated(old(handler.reader.pending))
    {
      reply := [];
      assert old(handler.writer.stream) + EncodeAll([]) == old(handler.writer.stream);
      var query := handler.ReadCommandBody();
      if query.Err? {
        return Some(ExceptionOf(query.failure)), reply;
      }
      var a := backend.answer(queries, query.value);
      queries := queries + 1;
      if a.Thrown? {
        return Some(OtherException(a.text)), reply;
      }
      SendReply(a);
      ReplyIsReply(a);
      return None, Reply(a);
    }

    function ExceptionOf(f: Failure): Exception {
      match f
      case ClientClosed => ClientException
      case NetworkError => OtherException(backend.errorText(f))
      case Undefined => UndefinedBehaviour
    }

    // The request of type c whose other bytes are still to be read.
    method Dispatch(c: byte) returns (e: Option<Exception>, ghost reply: seq<Message>)
      requires Valid() && handler.writer.Size() == 0
      modifies Repr(), `queries, `terminate
      ensures Valid() && handler.writer.Size() == 0
      ensures handler.writer.stream == old(handler.writer.stream) + EncodeAll(reply)
      ensures reply == [] || (e.None? && IsReply(reply))
      ensures |handler.reader.pending| <= |old(handler.reader.pending)|
      ensures if c == 81 then
                && terminate == old(terminate) && BodyGone(old(handler.reader.pending), handler.reader.pending)
                && (e == Some(UndefinedBehaviour) <==>
                      |old(handler.reader.pending)| >= 4 && BodySize(old(handler.reader.pending)) == 0)
                && (e == Some(ClientException) ==> Truncated(old(handler.reader.pending)))
                && (Answerable(old(handler.reader.pending)) ==>
                      Gives(e, reply, queries, handler.reader.pending,
                            QueryResponse(backend, old(handler.reader.pending), old(queries))))
              else
                && handler.reader.pending == old(handler.reader.pending) && queries == old(queries) && reply == []
                && terminate == (old(terminate) || c == 88)
                && e == if c == 88 || Ignored(c) then None
                        else Some(OtherException(Ascii("Unknown PG command type")))
    {
      reply := [];
      assert old(handler.writer.stream) + EncodeAll([]) == old(handler.writer.stream);
      if c == 81 {
        e, reply := HandlerSimpleQuery();
      } else if c == 88 {
        terminate := true;
        e := None;
      } else if c == 66 || c == 68 || c == 69 || c == 80 || c == 83 {
        e := None;
      } else {
        e := Some(OtherException(Ascii("Unknown PG command type")));
      }
    }

    method HandleRequest() returns (e: Option<Exception>, ghost reply: seq<Message>)
      requires Valid() && handler.writer.Size() == 0
      modifies Repr(), `queries, `terminate
      ensures Valid() && handler.writer.Size() == 0
      ensures handler.writer.stream == old(handler.writer.stream) + EncodeAll(reply)
      ensures reply == [] || (e.None? && IsReply(reply))
      ensures old(handler.reader.pending) == [] ==> e == Some(ClientException)
      ensures old(handler.reader.pending) != [] ==> |handler.reader.pending| < |old(handler.reader.pending)|
      ensures Decided(old(handler.reader.pending)) ==>
                && terminate == old(terminate)
                && Gives(e, reply, queries, handler.reader.pending,
                         Respond(backend, old(handler.reader.pending), old(queries)))
      ensures old(handler.reader.pending) != [] && old(handler.reader.pending)[0] == 88 ==>
                terminate && queries == old(queries) && e.None? && reply == []
      ensures !old(terminate) ==> Progress(old(handler.reader.pending), e, terminate, handler.reader.pending)
      ensures e == Some(UndefinedBehaviour) <==> UndefinedRequest(old(handler.reader.pending))
    {
      reply := [];
      assert old(handler.writer.stream) + EncodeAll([]) == old(handler.writer.stream);
      var commandType := handler.ReadCommandType();
      if commandType.Err? {
        return Some(ExceptionOf(commandType.failure)), reply;
      }
      e, reply := Dispatch(commandType.value);
      if commandType.value == 81 {
        QueryProgress(old(handler.reader.pending), e, handler.reader.pending);
      }
    }

    // One round of the loop: a request and, if it ends in an exception that is
    // not the client leaving, an error response.
    method ServeRequest() returns (stop: bool, undefined: bool, ghost reply: seq<Message>)
      requires Valid() && handler.writer.Size() == 0
      modifies Repr(), `queries, `terminate
      ensures Valid() && handler.writer.Size() == 0
      ensures handler.writer.stream == old(handler.writer.stream) + EncodeAll(reply)
      ensures reply == [] || (!stop && IsReply(reply))
      ensures !stop ==> |handler.reader.pending| < |old(handler.reader.pending)|
      ensures Served(backend, old(handler.reader.pending), old(queries), stop, reply, old(terminate), terminate,
                     queries, handler.reader.pending)
      ensures undefined <==> UndefinedRequest(old(handler.reader.pending))
      ensures undefined ==> stop
      ensures !old(terminate) ==>
                (Reaches(old(handler.reader.pending)) <==>
                   if stop then undefined else !terminate && Reaches(handler.reader.pending))
    {
      var e;
      e, reply := HandleRequest();
      undefined := e == Some(UndefinedBehaviour);
      stop := e.Some? && !e.value.OtherException?;
      if e.Some? && !stop {
        assert old(handler.writer.stream) + EncodeAll([]) == old(handler.writer.stream);
        SendError(e.value.text);
        ReplyIsReply(Failed(e.value.text));
        reply := ErrorReply(e.value.text);
      }
    }

    method HandleConnection() returns (e: Option<Failure>, ghost refused: nat)
      requires Valid() && handler.writer.Size() == 0
      modifies Repr()
      ensures Valid() && handler.writer.Size() == 0
      ensures e.None? <==> Startable(old(handler.reader.pending))
      ensures e.None? ==>
                && refused == ParseStartup(old(handler.reader.pending)).value.refused
                && handler.reader.pending == Requests(old(handler.reader.pending))
      ensures handler.writer.stream ==
              old(handler.writer.stream) + Refusals(refused) + if e.None? then EncodeAll(StartupMessages()) else []
    {
      var bodySize;
      bodySize, refused := handler.ReadStartupHeader();
      assert handler.writer.stream + [] == handler.writer.stream;
      if bodySize.Err? {
        return Some(bodySize.failure), refused;
      }
      var body := handler.ReadStartupBody(bodySize.value);
      if body.Err? {
        return Some(body.failure), refused;
      }
      SendStartup();
      return None, refused;
    }

    method Parameter(ghost s: seq<byte>, ghost ms: seq<Message>, key: string, value: string)
      returns (ghost more: seq<Message>)
      requires Valid() && handler.writer.stream == s + EncodeAll(ms)
      modifies handler.writer, handler.writer.data
      ensures Valid() && handler.writer.stream == s + EncodeAll(more)
      ensures more == ms + [Status(key, value)]
    {
      handler.SendParameter(Ascii(key), Ascii(value));
      more := ms + [Status(key, value)];
      Sending(s, ms, Status(key, value));
    }

    method SendStartup()
      requires Valid()
      modifies handler.writer, handler.writer.data
      ensures Valid() && handler.writer.Size() == 0
      ensures handler.writer.stream == old(handler.writer.stream) + EncodeAll(StartupMessages())
    {
      ghost var s, ms := handler.writer.stream, [Authentication];
      handler.SendAuthentication();
      JoinEachOne(Encode, Authentication);
      ms := Parameter(s, ms, "server_version", "14");
      ms := Parameter(s, ms, "server_encoding", "UTF8");
      ms := Parameter(s, ms, "client_encoding", "UTF8");
      ms := Parameter(s, ms, "DateStyle", "IOS, DMY");
      handler.SendReadyForQuery();
      Sending(s, ms, ReadyForQuery);
    }

    // One round, seen from the replies so far.
    method Round(ghost s: seq<byte>, ghost replies: seq<seq<Message>>)
      returns (stop: bool, undefined: bool, ghost more: seq<seq<Message>>)
      requires Valid() && handler.writer.Size() == 0 && !terminate && AllReplies(replies)
      requires handler.writer.stream == s + EncodeAll(Flatten(replies))
      modifies Repr(), `queries, `terminate
      ensures Valid() && handler.writer.Size() == 0 && AllReplies(more)
      ensures handler.writer.stream == s + EncodeAll(Flatten(more))
      ensures !stop ==> |handler.reader.pending| < |old(handler.reader.pending)|
      ensures undefined <==> UndefinedRequest(old(handler.reader.pending))
      ensures Reaches(old(handler.reader.pending)) <==>
              if stop then undefined else !terminate && Reaches(handler.reader.pending)
      ensures undefined ==> stop
      ensures Complete(old(handler.reader.pending)) ==>
                && (!stop && !terminate ==> Complete(handler.reader.pending))
                && replies + Session(backend, old(handler.reader.pending), old(queries)) ==
                   more + if stop || terminate then [] else Session(backend, handler.reader.pending, queries)
    {
      ghost var before, n := handler.reader.pending, queries;
      ghost var reply;
      stop, undefined, reply := ServeRequest();
      RoundSent(s, replies, reply);
      ExtendedReplies(replies, reply);
      more := Extended(replies, reply);
      if Complete(before) {
        SessionRound(backend, replies, before, n, stop, reply, terminate, queries, handler.reader.pending);
      }
    }

    // Serves requests until the client leaves. Whatever the client sends, each
    // reply is well formed, and the undefined request is reached exactly when the
    // input says so; unless the client closes inside a query, the replies are
    // exactly the session's.
    method Serve() returns (undefined: bool, ghost replies: seq<seq<Message>>)
      requires Valid() && handler.writer.Size() == 0 && !terminate && queries == 0
      modifies Repr(), `queries, `terminate
      ensures Valid() && handler.writer.Size() == 0 && AllReplies(replies)
      ensures handler.writer.stream == old(handler.writer.stream) + EncodeAll(Flatten(replies))
      ensures undefined <==> Reaches(old(handler.reader.pending))
      ensures Complete(old(handler.reader.pending)) ==> replies == Session(backend, old(handler.reader.pending), 0)
    {
      replies := [];
      assert old(handler.writer.stream) + EncodeAll([]) == old(handler.writer.stream);
      ghost var all := Session(backend, handler.reader.pending, 0);
      while !terminate
        invariant Valid() && handler.writer.Size() == 0 && AllReplies(replies)
        invariant handler.writer.stream == old(handler.writer.stream) + EncodeAll(Flatten(replies))
        invariant Reaches(old(handler.reader.pending)) <==> !terminate && Reaches(handler.reader.pending)
        invariant Complete(old(handler.reader.pending)) && !terminate ==> Complete(handler.reader.pending)
        invariant Complete(old(handler.reader.pending)) ==>
                    all == replies + if terminate then [] else Session(backend, handler.reader.pending, queries)
        decreases |handler.reader.pending|
      {
        var stop;
        stop, undefined, replies := Round(old(handler.writer.stream), replies);
        if stop { return; }
      }
      undefined := false;
    }

    // The whole connection. Refused encryption requests, the startup messages
    // and well-formed replies are all the client is ever sent, whatever pieces
    // the bytes travel in; all of it has been delivered, and the client can
    // tell the messages apart when their lengths fit their fields.
    method Run() returns (started: bool, undefined: bool, ghost refused: nat, ghost replies: seq<seq<Message>>)
      requires Valid() && handler.writer.Size() == 0 && handler.writer.stream == [] && !terminate && queries == 0
      modifies Repr(), `queries, `terminate
      ensures Valid() && AllReplies(replies) && (!started ==> replies == [])
      ensures started <==> Startable(old(handler.reader.pending))
      ensures started ==> refused == ParseStartup(old(handler.reader.pending)).value.refused
      ensures undefined <==> started && Reaches(Requests(old(handler.reader.pending)))
      ensures started && Complete(Requests(old(handler.reader.pending))) ==>
                replies == Session(backend, Requests(old(handler.reader.pending)), 0)
      ensures handler.writer.socket ==
              Refusals(refused) + if started then EncodeAll(StartupMessages() + Flatten(replies)) else []
      ensures var ms := StartupMessages() + Flatten(replies);
              && (started && AllFit(ms) ==> Unframe(handler.writer.socket[refused..]) == Some(Packets(ms)))
              && (started && AllFit(ms) && (forall i :: 0 <= i < |ms| ==> Readable(ms[i])) ==>
                    Decode(handler.writer.socket[refused..]) == Some(ms))
    {
      var e;
      replies, undefined := [], false;
      e, refused := HandleConnection();
      assert [] + Refusals(refused) == Refusals(refused);
      started := e.None?;
      if started {
        ghost var s := handler.writer.stream;
        undefined, replies := Serve();
        Conversation(refused, replies);
      }
      Delivered();
    }

    // With an empty ring, all that was sent has been delivered.
    lemma Delivered()
      requires Valid() && handler.writer.Size() == 0
      ensures handler.writer.socket == handler.writer.stream
    {
      assert handler.writer.socket + [] == handler.writer.socket;
    }
  }
}
