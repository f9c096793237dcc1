/** Change streams and their automatic resume (driver/src/change_stream/common.rs,
    driver/src/cursor/stream.rs:96-138, driver/src/operation/aggregate/change_stream.rs:65-136,
    driver/src/change_stream/event.rs:31-43).

    The server's change log is a sequence of documents. A resume token is a position in it: the
    token of document `i` is `i + 1`, and a post-batch token names the position its batch reached.
    The cursor keeps, besides what the driver sees, how far the server has moved (`served`): when a
    reply is lost the server may have moved on without the driver noticing.
 */
module ChangeStreams {
  import opened Wrappers
  import opened Errors

  type Token = nat

  datatype Doc = Doc(id: Option<Token>, body: nat)

  datatype Cursor = Cursor(
    batch: seq<Doc>,                // the front is the current document
    buffered: Option<seq<Doc>>,     // the reply that opened the cursor, until it is first read
    postBatchToken: Option<Token>,
    exhausted: bool,
    served: nat)

  datatype StartOption =
    | NoStart
    | StartAfter(token: Token)
    | ResumeAfter(token: Token)
    | StartAtOperationTime(time: nat)

  datatype Stream = Stream(cursor: Cursor, options: StartOption, resumeToken: Option<Token>, documentReturned: bool)

  datatype Advance = Advanced | Waiting | Exhausted

  // ---------------------------------------------------------------------
  // What the outside answers
  // ---------------------------------------------------------------------

  /** A getMore brings the next `count` documents, or fails after the server moved `lost` documents on. */
  datatype Fetch = Batch(count: nat, last: bool) | FetchFailed(error: Error, lost: nat)

  /** An aggregate that reopens the stream. Building its command takes the resume token out of the
      operation, so a command built again for a retry (`rebuilt`) is built without it. Without a token
      the server starts at `elsewhere`. */
  datatype Rewatch = Reopened(count: nat, last: bool, rebuilt: bool, elsewhere: nat) | RewatchFailed(error: Error)

  datatype Answers = Answers(fetches: seq<Fetch>, rewatches: seq<Rewatch>)

  function Upto(log: seq<Doc>, from: nat, count: nat): (to: nat)
    ensures from <= |log| ==> from <= to <= |log|
  {
    if from + count <= |log| then from + count else if from <= |log| then |log| else from
  }

  function Slice(log: seq<Doc>, from: nat, count: nat): seq<Doc> {
    if from <= |log| then log[from..Upto(log, from, count)] else []
  }

  /** Every document carries its own position as `_id`. */
  predicate WellFormedLog(log: seq<Doc>) { forall i | 0 <= i < |log| :: log[i].id == Some(i + 1) }

  // ---------------------------------------------------------------------
  // Opening and reopening
  // ---------------------------------------------------------------------

  function OpenAt(log: seq<Doc>, from: nat, count: nat, last: bool): Cursor {
    Cursor([], Some(Slice(log, from, count)), Some(Upto(log, from, count)), last, Upto(log, from, count))
  }

  function InitialToken(options: StartOption, first: seq<Doc>, postBatch: Option<Token>): Option<Token> {
    if postBatch.Some? && first == [] then postBatch
    else match options
         case StartAfter(t) => Some(t)
         case ResumeAfter(t) => Some(t)
         case _ => None
  }

  /** A new stream whose server starts at position `from`. */
  function Watch(log: seq<Doc>, options: StartOption, from: nat, count: nat, last: bool): Stream {
    var c := OpenAt(log, from, count, last);
    Stream(c, options, InitialToken(options, c.buffered.value, c.postBatchToken), false)
  }

  /** The start option of the aggregate that resumes a stream. A stream opened with `startAfter`
      keeps using it until it has returned a document. */
  function ResumeOption(options: StartOption, token: Option<Token>, documentReturned: bool): StartOption {
    if token.None? then options
    else if options.StartAfter? && !documentReturned then StartAfter(token.value)
    else ResumeAfter(token.value)
  }

  /** Where the server starts for a start option. */
  function StartPosition(log: seq<Doc>, option: StartOption, elsewhere: nat): nat {
    match option
    case StartAfter(t) => t
    case ResumeAfter(t) => t
    case _ => if elsewhere <= |log| then elsewhere else |log|
  }

  // ---------------------------------------------------------------------
  // Specification of the two loops
  // ---------------------------------------------------------------------

  datatype Tried = Tried(cursor: Cursor, result: Result<Advance, Error>) | NeedsFetch

  function TryAdvance(log: seq<Doc>, c: Cursor, fetches: seq<Fetch>): Tried {
    var rest := if c.batch == [] then [] else c.batch[1..];
    if rest != [] then Tried(c.(batch := rest), Ok(Advanced))
    else if c.buffered.Some? then
      Tried(c.(batch := c.buffered.value, buffered := None), Ok(if c.buffered.value == [] then Waiting else Advanced))
    else if c.exhausted then Tried(c.(batch := []), Ok(Exhausted))
    else if fetches == [] then NeedsFetch
    else
      match fetches[0]
      case Batch(count, last) =>
        var docs, to := Slice(log, c.served, count), Upto(log, c.served, count);
        Tried(Cursor(docs, None, Some(to), last, to), Ok(if docs == [] then Waiting else Advanced))
      case FetchFailed(error, lost) =>
        Tried(c.(batch := [], served := Upto(log, c.served, lost), exhausted := ClosesCursor(error)), Err(error))
  }

  predicate ClosesCursor(e: Error) { e.kind.Command? && (e.kind.command.code == 43 || e.kind.command.code == 237) }

  function FetchesAfter(c: Cursor, fetches: seq<Fetch>): seq<Fetch> {
    if |c.batch| > 1 || c.buffered.Some? || c.exhausted || fetches == [] then fetches else fetches[1..]
  }

  const MISSING_RESUME_TOKEN := Error(Other("missing resume token"), {}, None, None)

  function TokenOf(batch: seq<Doc>, postBatch: Option<Token>): Result<Option<Token>, Error> {
    if batch == [] then Ok(postBatch)
    else if batch[0].id.None? then Err(MISSING_RESUME_TOKEN)
    else Ok(batch[0].id)
  }

  datatype Next = Event(doc: Doc) | NothingYet | Ended | Failure(error: Error) | Unfinished

  datatype Called = Called(stream: Stream, next: Next, answers: Answers)

  /** One call of `next_if_any`. */
  function NextIfAny(log: seq<Doc>, s: Stream, a: Answers): Called
    decreases |a.fetches|
  {
    var t := TryAdvance(log, s.cursor, a.fetches);
    var a' := a.(fetches := FetchesAfter(s.cursor, a.fetches));
    if t.NeedsFetch? then Called(s, Unfinished, a')
    else if t.result.Ok? then Deliver(s.(cursor := t.cursor), t.result.value, a')
    else if !IsResumable(t.result.error) then Called(s.(cursor := t.cursor), Failure(t.result.error), a')
    else if a'.rewatches == [] then Called(s.(cursor := t.cursor), Unfinished, a')
    else
      var a'' := a'.(rewatches := a'.rewatches[1..]);
      match a'.rewatches[0]
      case RewatchFailed(error) => Called(s.(cursor := t.cursor), Failure(error), a'')
      case Reopened(_, _, _, _) =>
        NextIfAny(log, s.(cursor := Resumed(log, s, a'.rewatches[0])), a'')
  }

  /** Where a reopened cursor starts. */
  function ResumePosition(log: seq<Doc>, s: Stream, r: Rewatch): nat
    requires r.Reopened?
  {
    var token := if r.rebuilt then None else s.resumeToken;
    StartPosition(log, ResumeOption(s.options, token, s.documentReturned), r.elsewhere)
  }

  function Resumed(log: seq<Doc>, s: Stream, r: Rewatch): Cursor
    requires r.Reopened?
  {
    OpenAt(log, ResumePosition(log, s, r), r.count, r.last)
  }

  /** The token is cached first; a document without one ends the call. */
  function Deliver(s: Stream, advance: Advance, a: Answers): Called
    requires advance.Advanced? ==> s.cursor.batch != []
  {
    match TokenOf(s.cursor.batch, s.cursor.postBatchToken)
    case Err(error) => Called(s, Failure(error), a)
    case Ok(token) =>
      var s' := s.(resumeToken := token);
      match advance
      case Advanced => Called(s'.(documentReturned := true), Event(s.cursor.batch[0]), a)
      case Waiting => Called(s', NothingYet, a)
      case Exhausted => Called(s', Ended, a)
  }

  // ---------------------------------------------------------------------
  // The stream object
  // ---------------------------------------------------------------------

  class CursorWrapper {
    var cursor: Cursor
    const options: StartOption
    var resumeToken: Option<Token>
    var documentReturned: bool

    function Value(): Stream
      reads this
    {
      Stream(cursor, options, resumeToken, documentReturned)
    }

    constructor (s: Stream)
      ensures Value() == s
    {
      cursor, options, resumeToken, documentReturned := s.cursor, s.options, s.resumeToken, s.documentReturned;
    }

    method CallNextIfAny(log: seq<Doc>, answers: Answers) returns (next: Next, a: Answers)
      modifies this
      ensures Called(Value(), next, a) == NextIfAny(log, old(Value()), answers)
      ensures Tells(log, old(Value()), answers, next)
    {
      CallTells(log, Value(), answers);
      a := answers;
      while true
        invariant NextIfAny(log, Value(), a) == NextIfAny(log, old(Value()), answers)
        decreases |a.fetches|
      {
        var t := TryAdvance(log, cursor, a.fetches);
        a := a.(fetches := FetchesAfter(cursor, a.fetches));
        if t.NeedsFetch? { return Unfinished, a; }
        match t.result {
          case Ok(advance) =>
            cursor := t.cursor;
            var token := TokenOf(cursor.batch, cursor.postBatchToken);
            if token.Err? { return Failure(token.error), a; }
            resumeToken := token.value;
            match advance {
              case Advanced => documentReturned := true; return Event(cursor.batch[0]), a;
              case Waiting => return NothingYet, a;
              case Exhausted => return Ended, a;
            }
          case Err(error) =>
            cursor := t.cursor;
            if !IsResumable(error) { return Failure(error), a; }
            if a.rewatches == [] { return Unfinished, a; }
            var rewatch := a.rewatches[0];
            a := a.(rewatches := a.rewatches[1..]);
            if rewatch.RewatchFailed? { return Failure(rewatch.error), a; }
            cursor := Resumed(log, Value(), rewatch);
        }
      }
    }

    /** `next_event`: waits through empty batches. */
    method CallNextEvent(log: seq<Doc>, answers: Answers) returns (next: Next, a: Answers)
      modifies this
      ensures Called(Value(), next, a) == NextEvent(log, old(Value()), answers)
      ensures !next.NothingYet? && (next.Ended? ==> AtTheEnd(Value()) && cursor.batch == [])
    {
      EndsAtTheEnd(log, Value(), answers);
      next, a := CallNextIfAny(log, answers);
      WaitingConsumes(log, old(Value()), answers);
      while next.NothingYet?
        invariant NextEvent(log, old(Value()), answers) ==
                  if next.NothingYet? then NextEvent(log, Value(), a) else Called(Value(), next, a)
        decreases next.NothingYet?, |a.fetches|, cursor.buffered.Some?
      {
        WaitingConsumes(log, Value(), a);
        next, a := CallNextIfAny(log, a);
      }
    }
  }

  /** The first call that brings anything but an empty batch. */
  function NextEvent(log: seq<Doc>, s: Stream, a: Answers): (c: Called)
    ensures !c.next.NothingYet?
    decreases |a.fetches|, s.cursor.buffered.Some?
  {
    WaitingConsumes(log, s, a);
    var c := NextIfAny(log, s, a);
    if c.next.NothingYet? then NextEvent(log, c.stream, c.answers) else c
  }

  lemma {:induction false} WaitingConsumes(log: seq<Doc>, s: Stream, a: Answers)
    ensures var c := NextIfAny(log, s, a);
            && |c.answers.fetches| <= |a.fetches|
            && (c.next.NothingYet? ==> c.stream.cursor.buffered.None?)
            && (c.next.NothingYet? && s.cursor.buffered.None? ==> |c.answers.fetches| < |a.fetches|)
    decreases |a.fetches|
  {
    var t := TryAdvance(log, s.cursor, a.fetches);
    var a' := a.(fetches := FetchesAfter(s.cursor, a.fetches));
    if t.Tried? && t.result.Err? && IsResumable(t.result.error) && a'.rewatches != [] && a'.rewatches[0].Reopened? {
      var r := a'.rewatches[0];
      WaitingConsumes(log, s.(cursor := Resumed(log, s, r)), a'.(rewatches := a'.rewatches[1..]));
    }
  }

  // ---------------------------------------------------------------------
  // What a call returns
  // ---------------------------------------------------------------------

  /** The driver holds no document, has no reply in store, and the server closed the cursor. */
  predicate AtTheEnd(s: Stream) { |s.cursor.batch| <= 1 && s.cursor.buffered.None? && s.cursor.exhausted }

  /** Errors that do not come from the server, a lost cursor, and what the server marks as resumable. */
  predicate WorthResuming(e: Error) {
    || !(e.kind.Authentication? || e.kind.InsertMany? || e.kind.Command? || e.kind.Write?)
    || SdamCode(e) == Some(43)
    || ContainsLabel(e, "ResumableChangeStreamError")
  }

  /** The documents a call looks at, if it gets to look at any: those the driver holds behind the current one,
      else the reply that opened the cursor, else the one it fetches, else that of the cursor it resumes on. */
  function LooksAt(log: seq<Doc>, s: Stream, a: Answers): Option<seq<Doc>> {
    if |s.cursor.batch| > 1 then Some(s.cursor.batch[1..])
    else if s.cursor.buffered.Some? then s.cursor.buffered
    else if Resumes(s, a) then Some(Slice(log, ResumePosition(log, s, a.rewatches[0]), a.rewatches[0].count))
    else if Asks(s, a) && a.fetches[0].Batch? then Some(Slice(log, s.cursor.served, a.fetches[0].count))
    else None
  }

  /** A call says that the stream ended exactly at its end, that there is nothing yet exactly if what it looked
      at was empty, and hands out the first document it looked at. */
  predicate Tells(log: seq<Doc>, s: Stream, a: Answers, next: Next) {
    var docs := LooksAt(log, s, a);
    && (next.Ended? <==> AtTheEnd(s))
    && (next.NothingYet? <==> docs == Some([]))
    && (docs.Some? && docs.value != [] ==>
          next == if docs.value[0].id.Some? then Event(docs.value[0]) else Failure(MISSING_RESUME_TOKEN))
    && (next.Event? ==> docs.Some? && docs.value != [])
    && (docs.None? && !AtTheEnd(s) ==>
          next == if !Asks(s, a) then Unfinished
                  else if !WorthResuming(a.fetches[0].error) then Failure(a.fetches[0].error)
                  else if a.rewatches == [] then Unfinished
                  else Failure(a.rewatches[0].error))
  }

  lemma CallTells(log: seq<Doc>, s: Stream, a: Answers)
    ensures Tells(log, s, a, NextIfAny(log, s, a).next)
  {
    if Resumes(s, a) {
      var r := a.rewatches[0];
      var s' := s.(cursor := Resumed(log, s, r));
      var a' := Answers(a.fetches[1..], a.rewatches[1..]);
      assert NextIfAny(log, s, a) == NextIfAny(log, s', a');
      HoldingTells(log, s', a');
    } else {
      HoldingTells(log, s, a);
    }
  }

  /** A call that does not resume. */
  lemma HoldingTells(log: seq<Doc>, s: Stream, a: Answers)
    requires !Resumes(s, a)
    ensures Tells(log, s, a, NextIfAny(log, s, a).next)
  {
    var t := TryAdvance(log, s.cursor, a.fetches);
    if t.Tried? && t.result.Ok? { LocalIsDelivery(log, s, a); }
  }

  /** Whether the cursor counts as closed is what the last reply said; an error closes it if its code says that the
      server does not have the cursor any more. */
  lemma CursorFollowsServer(log: seq<Doc>, s: Stream, a: Answers)
    ensures NextIfAny(log, s, a).stream.cursor.exhausted ==
            if Resumes(s, a) then a.rewatches[0].last
            else if !Asks(s, a) then s.cursor.exhausted
            else if a.fetches[0].Batch? then a.fetches[0].last
            else a.fetches[0].error.kind.Command? && a.fetches[0].error.kind.command.code in {43, 237}
  {
    if Resumes(s, a) {
      var s' := s.(cursor := Resumed(log, s, a.rewatches[0]));
      var a' := Answers(a.fetches[1..], a.rewatches[1..]);
      assert NextIfAny(log, s, a) == NextIfAny(log, s', a');
    }
  }

  /** `next_event` ends only on a cursor that the server closed and that is used up. */
  lemma {:induction false} EndsAtTheEnd(log: seq<Doc>, s: Stream, a: Answers)
    ensures var c := NextEvent(log, s, a); c.next.Ended? ==> AtTheEnd(c.stream) && c.stream.cursor.batch == []
    decreases |a.fetches|, s.cursor.buffered.Some?
  {
    WaitingConsumes(log, s, a);
    CallTells(log, s, a);
    var c := NextIfAny(log, s, a);
    if c.next.NothingYet? {
      EndsAtTheEnd(log, c.stream, c.answers);
    } else if c.next.Ended? {
      assert TryAdvance(log, s.cursor, a.fetches) == Tried(s.cursor.(batch := []), Ok(Exhausted));
    }
  }

  // ---------------------------------------------------------------------
  // The position a stream is at
  // ---------------------------------------------------------------------

  /** Documents the driver holds and has not handed out. */
  function Ahead(c: Cursor): seq<Doc> {
    (if c.batch == [] then [] else c.batch[1..]) + (if c.buffered.Some? then c.buffered.value else [])
  }

  predicate OptionInLog(log: seq<Doc>, o: StartOption) {
    match o
    case StartAfter(t) => t <= |log|
    case ResumeAfter(t) => t <= |log|
    case _ => true
  }

  /** The stream stands at position `p` of the log: what it holds starts there, its token is `p`, and if
      the server is further than the driver knows then the driver holds nothing. */
  predicate StandsAt(log: seq<Doc>, s: Stream, p: nat) {
    var c, n := s.cursor, |Ahead(s.cursor)|;
    && OptionInLog(log, s.options)
    && p + n <= c.served <= |log|
    && Ahead(c) == log[p..p + n]
    && c.postBatchToken == Some(p + n)
    && (p + n < c.served ==> n == 0 && c.buffered.None?)
    && (c.buffered.Some? ==> c.batch == [])
    && (s.resumeToken == Some(p) || (s.resumeToken.None? && c.buffered.Some? && c.buffered.value != []))
  }

  /** Documents the server sent in replies that were lost. */
  function Missed(c: Cursor): int { if c.postBatchToken.Some? then c.served - c.postBatchToken.value else 0 }

  /** The call has to ask the server. */
  predicate Asks(s: Stream, a: Answers) {
    |s.cursor.batch| <= 1 && s.cursor.buffered.None? && !s.cursor.exhausted && a.fetches != []
  }

  /** The call resumes the stream on a new cursor. */
  predicate Resumes(s: Stream, a: Answers) {
    && Asks(s, a)
    && a.fetches[0].FetchFailed? && IsResumable(a.fetches[0].error)
    && a.rewatches != [] && a.rewatches[0].Reopened?
  }

  /** Where the documents of this call are read from. */
  function ReadsFrom(log: seq<Doc>, s: Stream, a: Answers, p: nat): nat {
    if Resumes(s, a) then ResumePosition(log, s, a.rewatches[0])
    else if Asks(s, a) && a.fetches[0].Batch? then s.cursor.served
    else p
  }

  /** The two ways to lose the place: read on with a cursor that lost a reply, or resume with a command
      that was built twice and so starts where the original options say. */
  predicate Steady(log: seq<Doc>, s: Stream, a: Answers, p: nat) {
    && !(Asks(s, a) && a.fetches[0].Batch? && Missed(s.cursor) > 0)
    && !(Resumes(s, a) && a.rewatches[0].rebuilt && StartPosition(log, s.options, a.rewatches[0].elsewhere) != p)
  }

  lemma WatchStands(log: seq<Doc>, options: StartOption, elsewhere: nat, count: nat, last: bool)
    requires OptionInLog(log, options)
    ensures var p := StartPosition(log, options, elsewhere);
            StandsAt(log, Watch(log, options, p, count, last), p)
  {
    var p := StartPosition(log, options, elsewhere);
    var s := Watch(log, options, p, count, last);
    assert Ahead(s.cursor) == Slice(log, p, count);
  }

  lemma SteadyReadsOn(log: seq<Doc>, s: Stream, a: Answers, p: nat)
    requires StandsAt(log, s, p)
    ensures Steady(log, s, a, p) <==> ReadsFrom(log, s, a, p) == p
    ensures ReadsFrom(log, s, a, p) <= |log|
  {
  }

  /** Delivering the front of a cursor that holds documents read from `q`. */
  lemma DeliverStands(log: seq<Doc>, s: Stream, advance: Advance, a: Answers, q: nat, n: nat, to: nat)
    requires WellFormedLog(log) && OptionInLog(log, s.options)
    requires q <= q + n <= |log| && s.cursor.batch == log[q..q + n] && s.cursor.buffered.None?
    requires s.cursor.postBatchToken == Some(q + n)
    requires to == s.cursor.served && q + n <= to <= |log| && (q + n < to ==> n == 0)
    requires advance.Advanced? <==> n > 0
    ensures var c := Deliver(s, advance, a);
            && (n > 0 ==> c.next == Event(log[q]) && StandsAt(log, c.stream, q + 1))
            && (n == 0 ==> (c.next.NothingYet? || c.next.Ended?) && StandsAt(log, c.stream, q))
            && c.stream.resumeToken.Some?
            && Missed(c.stream.cursor) == to - (q + n)
            && c.stream.documentReturned == (s.documentReturned || n > 0)
  {
    if n > 0 {
      assert s.cursor.batch[1..] == log[q + 1..q + n];
    }
  }

  /** A fresh cursor hands out its buffered reply without asking. */
  lemma FreshCursorDelivers(log: seq<Doc>, s: Stream, a: Answers, q: nat, count: nat, last: bool)
    requires WellFormedLog(log) && OptionInLog(log, s.options) && q <= |log|
    requires s.cursor == OpenAt(log, q, count, last)
    ensures var c := NextIfAny(log, s, a);
            && (c.next.Event? || c.next.NothingYet?)
            && (c.next.Event? ==> q < |log| && c.next.doc == log[q])
            && StandsAt(log, c.stream, if c.next.Event? then q + 1 else q)
            && c.stream.resumeToken.Some? && Missed(c.stream.cursor) == 0
            && c.stream.documentReturned == (s.documentReturned || c.next.Event?)
  {
    var t := TryAdvance(log, s.cursor, a.fetches);
    var to := Upto(log, q, count);
    var a' := a.(fetches := FetchesAfter(s.cursor, a.fetches));
    DeliverStands(log, s.(cursor := t.cursor), t.result.value, a', q, to - q, to);
  }

  /** The effect on its position of a call that reads from `q`. */
  predicate Effect(log: seq<Doc>, s: Stream, c: Called, p: nat, q: nat) {
    && StandsAt(log, c.stream, if c.next.Event? then q + 1 else q)
    && (c.next.Event? ==> q < |log| && c.next.doc == log[q])
    && (c.next.Failure? || c.next.Unfinished? ==> q == p && c.stream.resumeToken == s.resumeToken)
    && (c.next.Event? ==> c.stream.resumeToken == Some(q + 1))
    && (c.next.NothingYet? || c.next.Ended? ==> c.stream.resumeToken == Some(q))
    && (c.next.Event? || c.next.NothingYet? ==> Missed(c.stream.cursor) == 0)
    && c.stream.options == s.options
    && c.stream.documentReturned == (s.documentReturned || c.next.Event?)
  }

  lemma CallResumes(log: seq<Doc>, s: Stream, a: Answers, p: nat)
    requires WellFormedLog(log) && StandsAt(log, s, p) && Resumes(s, a)
    ensures Effect(log, s, NextIfAny(log, s, a), p, ResumePosition(log, s, a.rewatches[0]))
  {
    var r := a.rewatches[0];
    var s' := s.(cursor := Resumed(log, s, r));
    var a' := Answers(a.fetches[1..], a.rewatches[1..]);
    assert NextIfAny(log, s, a) == NextIfAny(log, s', a');
    FreshCursorDelivers(log, s', a', ResumePosition(log, s, r), r.count, r.last);
    OptionsAreKept(log, s', a');
  }

  lemma {:induction false} OptionsAreKept(log: seq<Doc>, s: Stream, a: Answers)
    requires s.cursor.buffered.Some?
    ensures NextIfAny(log, s, a).stream.options == s.options
  {
  }

  lemma CallFetches(log: seq<Doc>, s: Stream, a: Answers, p: nat)
    requires WellFormedLog(log) && StandsAt(log, s, p) && Asks(s, a) && a.fetches[0].Batch?
    ensures Effect(log, s, NextIfAny(log, s, a), p, s.cursor.served)
  {
    var t := TryAdvance(log, s.cursor, a.fetches);
    var a' := a.(fetches := a.fetches[1..]);
    var to := Upto(log, s.cursor.served, a.fetches[0].count);
    assert NextIfAny(log, s, a) == Deliver(s.(cursor := t.cursor), t.result.value, a');
    DeliverStands(log, s.(cursor := t.cursor), t.result.value, a', s.cursor.served, to - s.cursor.served, to);
  }

  lemma CallFails(log: seq<Doc>, s: Stream, a: Answers, p: nat)
    requires WellFormedLog(log) && StandsAt(log, s, p) && Asks(s, a) && a.fetches[0].FetchFailed? && !Resumes(s, a)
    ensures Effect(log, s, NextIfAny(log, s, a), p, p)
  {
    var t := TryAdvance(log, s.cursor, a.fetches);
    var c := NextIfAny(log, s, a);
    assert c.stream == s.(cursor := t.cursor) && (c.next.Failure? || c.next.Unfinished?);
    assert Ahead(s.cursor) == [] == Ahead(t.cursor);
  }

  /** A call that asks nobody moves on to what the driver holds, or finds the cursor exhausted. */
  lemma AdvanceStaysLocal(log: seq<Doc>, c: Cursor, fetches: seq<Fetch>)
    requires TryAdvance(log, c, fetches).Tried? && (c.buffered.Some? ==> c.batch == [])
    requires |c.batch| > 1 || c.buffered.Some? || c.exhausted
    ensures var t := TryAdvance(log, c, fetches);
            && t.result.Ok? && (t.result.value.Advanced? <==> Ahead(c) != [])
            && (t.result.value.Waiting? ==> c.buffered.Some?)
            && t.cursor == c.(batch := Ahead(c), buffered := None)
  {
    if |c.batch| > 1 {
      assert Ahead(c) == c.batch[1..];
    } else if c.buffered.Some? {
      assert Ahead(c) == c.buffered.value;
    } else {
      assert Ahead(c) == [];
    }
  }

  lemma LocalIsDelivery(log: seq<Doc>, s: Stream, a: Answers)
    requires TryAdvance(log, s.cursor, a.fetches).Tried? && TryAdvance(log, s.cursor, a.fetches).result.Ok?
    ensures var t := TryAdvance(log, s.cursor, a.fetches);
            NextIfAny(log, s, a) ==
            Deliver(s.(cursor := t.cursor), t.result.value, a.(fetches := FetchesAfter(s.cursor, a.fetches)))
  {
  }

  lemma DeliveryStaysLocal(log: seq<Doc>, s: Stream, advance: Advance, a: Answers, p: nat)
    requires WellFormedLog(log) && StandsAt(log, s, p) && (advance.Advanced? <==> Ahead(s.cursor) != [])
    requires advance.Waiting? ==> s.cursor.buffered.Some?
    ensures var s' := s.(cursor := s.cursor.(batch := Ahead(s.cursor), buffered := None));
            Effect(log, s, Deliver(s', advance, a), p, p)
  {
    var s' := s.(cursor := s.cursor.(batch := Ahead(s.cursor), buffered := None));
    DeliverStands(log, s', advance, a, p, |Ahead(s.cursor)|, s.cursor.served);
  }

  lemma CallStaysLocal(log: seq<Doc>, s: Stream, a: Answers, p: nat)
    requires WellFormedLog(log) && StandsAt(log, s, p) && !Asks(s, a)
    ensures Effect(log, s, NextIfAny(log, s, a), p, p)
  {
    var t := TryAdvance(log, s.cursor, a.fetches);
    if t.Tried? {
      AdvanceStaysLocal(log, s.cursor, a.fetches);
      LocalIsDelivery(log, s, a);
      DeliveryStaysLocal(log, s, t.result.value, a.(fetches := FetchesAfter(s.cursor, a.fetches)), p);
    }
  }

  /** What one call does to the position, in every case. */
  lemma OneCall(log: seq<Doc>, s: Stream, a: Answers, p: nat)
    requires WellFormedLog(log) && StandsAt(log, s, p)
    ensures Effect(log, s, NextIfAny(log, s, a), p, ReadsFrom(log, s, a, p))
  {
    if Resumes(s, a) {
      CallResumes(log, s, a, p);
    } else if !Asks(s, a) {
      CallStaysLocal(log, s, a, p);
    } else if a.fetches[0].Batch? {
      CallFetches(log, s, a, p);
    } else {
      CallFails(log, s, a, p);
    }
  }

  /** As long as the server answers, `next_event` waits for the document at the stream's position, however many
      empty replies come first. */
  lemma {:induction false} NextEventIsNext(log: seq<Doc>, s: Stream, a: Answers, p: nat)
    requires WellFormedLog(log) && StandsAt(log, s, p) && Missed(s.cursor) == 0
    requires forall i | 0 <= i < |a.fetches| :: a.fetches[i].Batch?
    ensures var c := NextEvent(log, s, a);
            && !c.next.Failure?
            && (c.next.Event? ==> p < |log| && c.next.doc == log[p])
            && StandsAt(log, c.stream, if c.next.Event? then p + 1 else p)
    decreases |a.fetches|, s.cursor.buffered.Some?
  {
    WaitingConsumes(log, s, a);
    OneCall(log, s, a, p);
    AnsweredInPlace(log, s, a, p);
    var c := NextIfAny(log, s, a);
    if c.next.NothingYet? { NextEventIsNext(log, c.stream, c.answers, p); }
  }

  lemma AnsweredInPlace(log: seq<Doc>, s: Stream, a: Answers, p: nat)
    requires WellFormedLog(log) && StandsAt(log, s, p) && Missed(s.cursor) == 0
    requires forall i | 0 <= i < |a.fetches| :: a.fetches[i].Batch?
    ensures ReadsFrom(log, s, a, p) == p
    ensures var c := NextIfAny(log, s, a);
            && !c.next.Failure? && (c.answers.fetches == a.fetches || c.answers.fetches == a.fetches[1..])
  {
    CallTells(log, s, a);
    var docs := LooksAt(log, s, a);
    if docs.Some? && docs.value != [] { LookedAtHaveIds(log, s, a, p); }
  }

  lemma LookedAtHaveIds(log: seq<Doc>, s: Stream, a: Answers, p: nat)
    requires WellFormedLog(log) && StandsAt(log, s, p) && !Resumes(s, a)
    requires LooksAt(log, s, a).Some? && LooksAt(log, s, a).value != []
    ensures LooksAt(log, s, a).value[0].id.Some?
  {
    if !(Asks(s, a) && a.fetches[0].Batch?) { assert LooksAt(log, s, a).value == Ahead(s.cursor); }
  }

  // ---------------------------------------------------------------------
  // Runs
  // ---------------------------------------------------------------------

  datatype Ran = Ran(stream: Stream, delivered: seq<Doc>)

  /** Any number of calls, each with what the server answered during it. */
  function Run(log: seq<Doc>, s: Stream, calls: seq<Answers>): Ran {
    if calls == [] then Ran(s, [])
    else
      var before := Run(log, s, calls[..|calls| - 1]);
      After(before, NextIfAny(log, before.stream, calls[|calls| - 1]))
  }

  function After(r: Ran, c: Called): Ran {
    Ran(c.stream, r.delivered + (if c.next.Event? then [c.next.doc] else []))
  }

  /** The documents handed out are the log from `p` on, with no gap and no repetition, and the cached
      token separates them from the rest. A stream opened without a token caches none before its first
      document. */
  predicate Faithful(log: seq<Doc>, p: nat, r: Ran) {
    && p + |r.delivered| <= |log|
    && r.delivered == log[p..p + |r.delivered|]
    && (r.stream.resumeToken == Some(p + |r.delivered|) || (r.stream.resumeToken.None? && r.delivered == []))
  }

  predicate Placed(log: seq<Doc>, p: nat, r: Ran) {
    Faithful(log, p, r) && StandsAt(log, r.stream, p + |r.delivered|)
  }

  lemma ReadingOnKeepsPlace(log: seq<Doc>, p: nat, r: Ran, c: Called, at: nat)
    requires at == p + |r.delivered| && Placed(log, p, r) && Effect(log, r.stream, c, at, at)
    ensures Placed(log, p, After(r, c))
  {
    if c.next.Event? {
      assert log[p..at] + [log[at]] == log[p..at + 1];
    }
  }

  lemma JumpingLosesPlace(log: seq<Doc>, p: nat, r: Ran, c: Called, at: nat, q: nat)
    requires WellFormedLog(log) && at == p + |r.delivered| && Placed(log, p, r)
    requires Effect(log, r.stream, c, at, q) && q != at
    ensures !Faithful(log, p, After(r, c))
  {
    var d := After(r, c).delivered;
    if c.next.Event? {
      assert d[|r.delivered|] == log[q] && log[q].id == Some(q + 1);
      if at < |log| {
        assert log[at].id == Some(at + 1);
        assert at + 1 <= |log| ==> log[p..at + 1][|r.delivered|] == log[at];
      }
    } else {
      assert d == r.delivered;
    }
  }

  predicate SteadyThroughout(log: seq<Doc>, s: Stream, calls: seq<Answers>, p: nat)
    decreases |calls|
  {
    calls != [] ==>
      var before := Run(log, s, calls[..|calls| - 1]);
      && SteadyThroughout(log, s, calls[..|calls| - 1], p)
      && Steady(log, before.stream, calls[|calls| - 1], p + |before.delivered|)
  }

  predicate FaithfulThroughout(log: seq<Doc>, s: Stream, calls: seq<Answers>, p: nat)
    decreases |calls|
  {
    && Faithful(log, p, Run(log, s, calls))
    && (calls != [] ==> FaithfulThroughout(log, s, calls[..|calls| - 1], p))
  }

  lemma {:induction false} SteadyRunsKeepPlace(log: seq<Doc>, s: Stream, calls: seq<Answers>, p: nat)
    requires WellFormedLog(log) && StandsAt(log, s, p) && SteadyThroughout(log, s, calls, p)
    ensures Placed(log, p, Run(log, s, calls))
    decreases |calls|
  {
    if calls != [] {
      var init, a := calls[..|calls| - 1], calls[|calls| - 1];
      SteadyRunsKeepPlace(log, s, init, p);
      SteadyCallKeepsPlace(log, p, Run(log, s, init), a);
    }
  }

  lemma SteadyCallKeepsPlace(log: seq<Doc>, p: nat, r: Ran, a: Answers)
    requires WellFormedLog(log) && Placed(log, p, r) && Steady(log, r.stream, a, p + |r.delivered|)
    ensures Placed(log, p, After(r, NextIfAny(log, r.stream, a)))
  {
    var at := p + |r.delivered|;
    SteadyReadsOn(log, r.stream, a, at);
    OneCall(log, r.stream, a, at);
    ReadingOnKeepsPlace(log, p, r, NextIfAny(log, r.stream, a), at);
  }

  /** A run is faithful after every one of its calls exactly when every call was steady. */
  lemma {:induction false} FaithfulExactlyWhenSteady(log: seq<Doc>, s: Stream, calls: seq<Answers>, p: nat)
    requires WellFormedLog(log) && StandsAt(log, s, p)
    ensures FaithfulThroughout(log, s, calls, p) <==> SteadyThroughout(log, s, calls, p)
    decreases |calls|
  {
    if SteadyThroughout(log, s, calls, p) {
      SteadyRunsKeepPlace(log, s, calls, p);
    }
    if calls != [] {
      var init, a := calls[..|calls| - 1], calls[|calls| - 1];
      FaithfulExactlyWhenSteady(log, s, init, p);
      if SteadyThroughout(log, s, init, p) && !SteadyThroughout(log, s, calls, p) {
        SteadyRunsKeepPlace(log, s, init, p);
        UnsteadyCallLosesPlace(log, p, Run(log, s, init), a);
      }
    }
  }

  lemma UnsteadyCallLosesPlace(log: seq<Doc>, p: nat, r: Ran, a: Answers)
    requires WellFormedLog(log) && Placed(log, p, r)
    requires !Steady(log, r.stream, a, p + |r.delivered|)
    ensures !Faithful(log, p, After(r, NextIfAny(log, r.stream, a)))
  {
    var at := p + |r.delivered|;
    SteadyReadsOn(log, r.stream, a, at);
    OneCall(log, r.stream, a, at);
    JumpingLosesPlace(log, p, r, NextIfAny(log, r.stream, a), at, ReadsFrom(log, r.stream, a, at));
  }

  // ---------------------------------------------------------------------
  // What a caller can do about it
  // ---------------------------------------------------------------------

  /** No call follows a failed or abandoned one, and no command that reopens the stream is built twice. */
  predicate Careful(log: seq<Doc>, s: Stream, calls: seq<Answers>)
    decreases |calls|
  {
    calls != [] ==>
      var init, a := calls[..|calls| - 1], calls[|calls| - 1];
      && Careful(log, s, init)
      && (init != [] ==> LastAnswer(log, s, init).Event? || LastAnswer(log, s, init).NothingYet?)
      && (forall r | r in a.rewatches && r.Reopened? :: !r.rebuilt)
  }

  function LastAnswer(log: seq<Doc>, s: Stream, calls: seq<Answers>): Next
    requires calls != []
  {
    NextIfAny(log, Run(log, s, calls[..|calls| - 1]).stream, calls[|calls| - 1]).next
  }

  lemma CarefulCallIsSteady(log: seq<Doc>, s: Stream, a: Answers, p: nat)
    requires Missed(s.cursor) == 0 && forall r | r in a.rewatches && r.Reopened? :: !r.rebuilt
    ensures Steady(log, s, a, p)
  {
    assert a.rewatches != [] ==> a.rewatches[0] in a.rewatches;
  }

  /** A caller who stops at the first failure gets the log from the start point on. */
  lemma {:induction false} CarefulRunsAreSteady(log: seq<Doc>, s: Stream, calls: seq<Answers>, p: nat)
    requires WellFormedLog(log) && StandsAt(log, s, p) && Missed(s.cursor) == 0 && Careful(log, s, calls)
    ensures SteadyThroughout(log, s, calls, p)
    decreases |calls|
  {
    if calls != [] {
      var init, a := calls[..|calls| - 1], calls[|calls| - 1];
      CarefulRunsAreSteady(log, s, init, p);
      NothingMissed(log, s, init, p);
      var r := Run(log, s, init);
      CarefulCallIsSteady(log, r.stream, a, p + |r.delivered|);
    }
  }

  lemma NothingMissed(log: seq<Doc>, s: Stream, calls: seq<Answers>, p: nat)
    requires WellFormedLog(log) && StandsAt(log, s, p) && Missed(s.cursor) == 0 && SteadyThroughout(log, s, calls, p)
    requires calls != [] ==> LastAnswer(log, s, calls).Event? || LastAnswer(log, s, calls).NothingYet?
    ensures Missed(Run(log, s, calls).stream.cursor) == 0
  {
    if calls != [] {
      var init, a := calls[..|calls| - 1], calls[|calls| - 1];
      SteadyRunsKeepPlace(log, s, init, p);
      NothingMissedAfter(log, Run(log, s, init), a, p);
    }
  }

  lemma NothingMissedAfter(log: seq<Doc>, r: Ran, a: Answers, p: nat)
    requires WellFormedLog(log) && Placed(log, p, r)
    ensures var c := NextIfAny(log, r.stream, a);
            c.next.Event? || c.next.NothingYet? ==> Missed(c.stream.cursor) == 0
  {
    OneCall(log, r.stream, a, p + |r.delivered|);
  }

  // ---------------------------------------------------------------------
  // Two runs that lose their place
  // ---------------------------------------------------------------------

  const NETWORK_ERROR := Error(Io(None), {}, None, None)

  /** The reply to a getMore is lost, so is the attempt to resume, and the caller asks again: the old
      cursor reads on past the documents of the lost reply. */
  lemma PollingAfterFailedResumeSkips(d0: nat, d1: nat)
    ensures var log := [Doc(Some(1), d0), Doc(Some(2), d1)];
            var s := Watch(log, NoStart, 0, 0, false);
            var calls := [Answers([], []),
                          Answers([FetchFailed(NETWORK_ERROR, 1)], [RewatchFailed(NETWORK_ERROR)]),
                          Answers([Batch(1, false)], [])];
            Run(log, s, calls).delivered == [log[1]]
  {
    var log := [Doc(Some(1), d0), Doc(Some(2), d1)];
    var s := Watch(log, NoStart, 0, 0, false);
    var a0, a2 := Answers([], []), Answers([Batch(1, false)], []);
    var a1 := Answers([FetchFailed(NETWORK_ERROR, 1)], [RewatchFailed(NETWORK_ERROR)]);
    var c0 := NextIfAny(log, s, a0);
    assert c0.next.NothingYet?;
    var c1 := NextIfAny(log, c0.stream, a1);
    assert c1.next == Failure(NETWORK_ERROR) && c1.stream.cursor.served == 1;
    var c2 := NextIfAny(log, c1.stream, a2);
    assert c2.next == Event(log[1]);
    var calls := [a0, a1, a2];
    assert calls[..2] == [a0, a1] && calls[..2][..1] == [a0] && [a0][..0] == [];
    assert Run(log, s, []) == Ran(s, []);
    assert Run(log, s, [a0]) == Ran(c0.stream, []);
    assert Run(log, s, calls[..2]) == Ran(c1.stream, []);
  }

  /** The command that resumes is sent twice; the second one has no token and starts over from the
      token the stream was opened with, so a document is handed out twice. */
  lemma RetriedResumeRepeats(d0: nat)
    ensures var log := [Doc(Some(1), d0)];
            var s := Watch(log, ResumeAfter(0), 0, 1, false);
            var calls := [Answers([], []),
                          Answers([FetchFailed(NETWORK_ERROR, 0)], [Reopened(1, false, true, 0)])];
            Run(log, s, calls).delivered == [log[0], log[0]]
  {
    var log := [Doc(Some(1), d0)];
    var s := Watch(log, ResumeAfter(0), 0, 1, false);
    var a0, a1 := Answers([], []), Answers([FetchFailed(NETWORK_ERROR, 0)], [Reopened(1, false, true, 0)]);
    var c0 := NextIfAny(log, s, a0);
    assert c0.next == Event(log[0]);
    var c1 := NextIfAny(log, c0.stream, a1);
    assert Resumes(c0.stream, a1);
    assert ResumePosition(log, c0.stream, a1.rewatches[0]) == 0;
    var s1 := c0.stream.(cursor := Resumed(log, c0.stream, a1.rewatches[0]));
    assert a1.fetches[1..] == [] && a1.rewatches[1..] == [];
    assert c1 == NextIfAny(log, s1, Answers([], []));
    assert Slice(log, 0, 1) == [log[0]];
    var calls := [a0, a1];
    assert calls[..1] == [a0] && [a0][..0] == [];
    assert Run(log, s, []) == Ran(s, []);
    assert Run(log, s, [a0]) == Ran(c0.stream, [log[0]]);
  }

  // ---------------------------------------------------------------------
  // The start option of a resume
  // ---------------------------------------------------------------------

  /** Until it has handed out a document, a stream opened with `startAfter` resumes with `startAfter`,
      and every other one with `resumeAfter`; the token is the current position either way. */
  lemma {:induction false} ResumesFromItsPlace(log: seq<Doc>, options: StartOption, count: nat, last: bool,
                                               elsewhere: nat, calls: seq<Answers>)
    requires WellFormedLog(log) && OptionInLog(log, options)
    requires var p := StartPosition(log, options, elsewhere);
             SteadyThroughout(log, Watch(log, options, p, count, last), calls, p)
    ensures var p := StartPosition(log, options, elsewhere);
            var r := Run(log, Watch(log, options, p, count, last), calls);
            r.stream.resumeToken.Some? ==>
              ResumeOption(r.stream.options, r.stream.resumeToken, r.stream.documentReturned) ==
              if options.StartAfter? && r.delivered == [] then StartAfter(p) else ResumeAfter(p + |r.delivered|)
  {
    var p := StartPosition(log, options, elsewhere);
    var s := Watch(log, options, p, count, last);
    WatchStands(log, options, elsewhere, count, last);
    SteadyRunsKeepPlace(log, s, calls, p);
    DocumentReturnedMeansDelivered(log, s, calls, p);
  }

  lemma {:induction false} DocumentReturnedMeansDelivered(log: seq<Doc>, s: Stream, calls: seq<Answers>, p: nat)
    requires WellFormedLog(log) && StandsAt(log, s, p) && !s.documentReturned && SteadyThroughout(log, s, calls, p)
    ensures var r := Run(log, s, calls);
            r.stream.options == s.options && (r.stream.documentReturned <==> r.delivered != [])
    decreases |calls|
  {
    if calls != [] {
      var init, a := calls[..|calls| - 1], calls[|calls| - 1];
      DocumentReturnedMeansDelivered(log, s, init, p);
      SteadyRunsKeepPlace(log, s, init, p);
      ReturnedAfter(log, Run(log, s, init), a, p);
    }
  }

  lemma ReturnedAfter(log: seq<Doc>, r: Ran, a: Answers, p: nat)
    requires WellFormedLog(log) && Placed(log, p, r) && (r.stream.documentReturned <==> r.delivered != [])
    ensures var r' := After(r, NextIfAny(log, r.stream, a));
            r'.stream.options == r.stream.options && (r'.stream.documentReturned <==> r'.delivered != [])
  {
    OneCall(log, r.stream, a, p + |r.delivered|);
  }
}
