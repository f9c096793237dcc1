/** The streaming printer of documents for logs and traces (driver/src/bson_util.rs:367-481).

    A document is a tree of elements. An element may be malformed, and so may a value: the printer
    finds out only when it gets there. The JSON text of a key and of a scalar is taken as given.
 */
module JsonPrinter {
  import opened Wrappers
  import opened Utf8

  datatype Failure = Malformed(reason: nat)

  datatype Value =
    | Document(elements: seq<Element>)
    | Array(elements: seq<Element>)
    | BadArray(reason: Failure)
    | Scalar(json: Text)
    | BadScalar(reason: Failure)

  datatype Element =
    | Element(key: string, keyJson: Text, value: Value)
    | BadElement(reason: Failure)

  // ---------------------------------------------------------------------
  // Reference: what the printer would print if there were no limit
  // ---------------------------------------------------------------------

  /** Text printed, and the failure that stopped it. */
  datatype Printed = Printed(text: Text, failure: Option<Failure>)

  function Then(p: Printed, q: Printed): Printed {
    if p.failure.Some? then p else (ConcatWellFormed(p.text, q.text); Printed(p.text + q.text, q.failure))
  }

  function Say(s: Text): Printed { Printed(s, None) }

  const COMMA: Text := [0x2C]
  const COLON: Text := [0x3A]
  const DOT: Text := [0x2E]
  const ELLIPSIS: Text := (ConcatWellFormed(DOT, DOT); ConcatWellFormed(DOT + DOT, DOT); DOT + DOT + DOT)

  function Open(isArray: bool): Text { if isArray then [0x5B] else [0x7B] }

  function Close(isArray: bool): Text { if isArray then [0x5D] else [0x7D] }

  const HIDDEN_KEYS := ["lsid", "$db", "$clusterTime", "signature"]

  function Prefix(e: Element, isArray: bool, isFirst: bool): Printed
    requires e.Element?
  {
    Then(Say(if isFirst then [] else COMMA), if isArray then Say([]) else Then(Say(e.keyJson), Say(COLON)))
  }

  function PrintValue(v: Value): Printed
    decreases v
  {
    match v
    case Document(es) => Then(Say(Open(false)), PrintElements(es, false, true, false))
    case Array(es) => Then(Say(Open(true)), PrintElements(es, true, true, false))
    case BadArray(reason) => Printed(Open(true), Some(reason))
    case Scalar(json) => Say(json)
    case BadScalar(reason) => Printed([], Some(reason))
  }

  /** The remaining elements of a document or array and its closing bracket. */
  function PrintElements(es: seq<Element>, isArray: bool, isFirst: bool, hiding: bool): Printed
    decreases es
  {
    if es == [] then Say(Close(isArray))
    else if es[0].BadElement? then Printed([], Some(es[0].reason))
    else if hiding && es[0].key in HIDDEN_KEYS then PrintElements(es[1..], isArray, isFirst, hiding)
    else Then(Prefix(es[0], isArray, isFirst),
              Then(PrintValue(es[0].value), PrintElements(es[1..], isArray, false, hiding)))
  }

  function PrintDocument(es: seq<Element>, otel: bool): Printed {
    Then(Say(Open(false)), PrintElements(es, false, true, otel))
  }

  /** What a limit of `max` bytes leaves of a text. A failure behind the cut goes unnoticed. */
  function Limited(p: Printed, max: nat): Result<Text, Failure> {
    if |p.text| > max then
      var i := Ceiling(p.text, max);
      CutWellFormed(p.text, i);
      ConcatWellFormed(p.text[..i], ELLIPSIS);
      Ok(p.text[..i] + ELLIPSIS)
    else if p.failure.Some? then Err(p.failure.value)
    else Ok(p.text)
  }

  // ---------------------------------------------------------------------
  // The printer
  // ---------------------------------------------------------------------

  /** Appends `s`, or as much of it as fits and an ellipsis. */
  method PushTrunc(out: Text, max: nat, s: Text) returns (r: Text, full: bool)
    requires |out| <= max
    ensures full <==> |out| + |s| > max
    ensures !full ==> r == out + s
    ensures full ==> r == out + s[..Ceiling(s, max - |out|)] + ELLIPSIS
  {
    var newLength := |out| + |s|;
    if newLength <= max {
      ConcatWellFormed(out, s);
      return out + s, false;
    }
    var delta := newLength - max;
    var keep := if |s| >= delta then |s| - delta else 0;
    var head, _ := TruncateOnCharBoundary(s, keep);
    ConcatWellFormed(out, head);
    ConcatWellFormed(out + head, ELLIPSIS);
    return out + head + ELLIPSIS, true;
  }

  datatype Frame = Frame(rest: seq<Element>, isArray: bool)

  /** What is still to be printed when the innermost bracket has been closed. */
  function Unwind(stack: seq<Frame>, otel: bool): Printed {
    if stack == [] then Say([])
    else
      var n := |stack| - 1;
      Then(PrintElements(stack[n].rest, stack[n].isArray, false, otel && n == 0), Unwind(stack[..n], otel))
  }

  function Remaining(current: seq<Element>, isArray: bool, isFirst: bool, stack: seq<Frame>, otel: bool): Printed {
    Then(PrintElements(current, isArray, isFirst, otel && stack == []), Unwind(stack, otel))
  }

  /** Elements and brackets still to come. */
  function Nodes(es: seq<Element>): nat
    decreases es
  {
    if es == [] then 0
    else 1 + (if es[0].Element? then NodesOf(es[0].value) else 0) + Nodes(es[1..])
  }

  function NodesOf(v: Value): nat
    decreases v
  {
    match v
    case Document(es) => 1 + Nodes(es)
    case Array(es) => 1 + Nodes(es)
    case _ => 0
  }

  function Pending(stack: seq<Frame>): nat {
    if stack == [] then 0 else 1 + Nodes(stack[|stack| - 1].rest) + Pending(stack[..|stack| - 1])
  }

  lemma ThenIsAssociative(p: Printed, q: Printed, r: Printed)
    ensures Then(Then(p, q), r) == Then(p, Then(q, r))
  {
    if p.failure.None? && q.failure.None? {
      assert p.text + q.text + r.text == p.text + (q.text + r.text);
    }
  }

  /** Text that does not fit decides the result, whatever comes after it. */
  lemma OverflowDecides(out: Text, s: Text, rest: Printed, max: nat)
    requires |out| <= max < |out| + |s|
    ensures Limited(Then(Say(out), Then(Say(s), rest)), max) == Ok(out + s[..Ceiling(s, max - |out|)] + ELLIPSIS)
  {
    var i := Ceiling(s, max - |out|);
    var whole := out + s + rest.text;
    assert out + (s + rest.text) == whole;
    CeilingOfMiddle(out, s, rest.text, max - |out|);
    PrefixOfConcat(out, s, rest.text, i);
    CutDecides(Then(Say(out), Then(Say(s), rest)), max, |out| + i, out + s[..i]);
  }

  lemma PrefixOfConcat(a: Bytes, b: Bytes, c: Bytes, i: nat)
    requires i <= |b|
    ensures (a + b + c)[..|a| + i] == a + b[..i]
  {
  }

  lemma CutDecides(p: Printed, max: nat, i: nat, head: Bytes)
    requires |p.text| > max && Ceiling(p.text, max) == i && p.text[..i] == head
    ensures Limited(p, max) == Ok(head + ELLIPSIS)
  {
  }

  lemma FittingMovesOn(out: Text, s: Text, rest: Printed)
    requires WellFormed(out + s)
    ensures Then(Say(out), Then(Say(s), rest)) == Then(Say(out + s), rest)
  {
    ThenIsAssociative(Say(out), Say(s), rest);
  }

  lemma NothingSaid(out: Text, rest: Printed)
    ensures Then(Say(out), Then(Say([]), rest)) == Then(Say(out), rest)
  {
    assert [] + rest.text == rest.text;
  }

  lemma ElementUnfolds(e: Element, rest: seq<Element>, isArray: bool, isFirst: bool, stack: seq<Frame>, otel: bool)
    requires e.Element? && !(otel && stack == [] && e.key in HIDDEN_KEYS)
    ensures Remaining([e] + rest, isArray, isFirst, stack, otel) ==
            Then(Say(if isFirst then [] else COMMA),
                 Then(if isArray then Say([]) else Then(Say(e.keyJson), Say(COLON)),
                      Then(PrintValue(e.value), Remaining(rest, isArray, false, stack, otel))))
  {
    var es, u := [e] + rest, Unwind(stack, otel);
    var prefix, value := Prefix(e, isArray, isFirst), PrintValue(e.value);
    var more := PrintElements(rest, isArray, false, otel && stack == []);
    assert es[1..] == rest;
    assert PrintElements(es, isArray, isFirst, otel && stack == []) == Then(prefix, Then(value, more));
    ThenIsAssociative(prefix, Then(value, more), u);
    ThenIsAssociative(value, more, u);
    ThenIsAssociative(Say(if isFirst then [] else COMMA), if isArray then Say([]) else Then(Say(e.keyJson), Say(COLON)),
                      Then(value, Then(more, u)));
  }

  lemma PendingPush(stack: seq<Frame>, f: Frame)
    ensures Pending(stack + [f]) == 1 + Nodes(f.rest) + Pending(stack)
  {
    assert (stack + [f])[..|stack|] == stack;
  }

  /** Entering a nested document or array. */
  lemma NestedUnfolds(es: seq<Element>, nestedArray: bool, rest: seq<Element>, isArray: bool, stack: seq<Frame>,
                      otel: bool)
    ensures Then(PrintValue(if nestedArray then Array(es) else Document(es)),
                 Remaining(rest, isArray, false, stack, otel)) ==
            Then(Say(Open(nestedArray)), Remaining(es, nestedArray, true, stack + [Frame(rest, isArray)], otel))
  {
    var stack' := stack + [Frame(rest, isArray)];
    assert stack'[..|stack|] == stack;
    ThenIsAssociative(Say(Open(nestedArray)), PrintElements(es, nestedArray, true, false),
                      Remaining(rest, isArray, false, stack, otel));
  }

  /** One `push_trunc!`: `goal` is what the whole document prints, `rest` what follows `s` in it. */
  method Push(out: Text, max: nat, s: Text, ghost rest: Printed, ghost goal: Printed) returns (r: Text, full: bool)
    requires |out| <= max && goal == Then(Say(out), Then(Say(s), rest))
    ensures full ==> Limited(goal, max) == Ok(r)
    ensures !full ==> |r| <= max && goal == Then(Say(r), rest)
  {
    r, full := PushTrunc(out, max, s);
    if full {
      OverflowDecides(out, s, rest, max);
    } else {
      FittingMovesOn(out, s, rest);
    }
  }

  /** Separator and key of an element. */
  method PushPrefix(out: Text, max: nat, e: Element, isArray: bool, isFirst: bool, ghost rest: Printed,
                    ghost goal: Printed)
    returns (r: Text, full: bool)
    requires |out| <= max && e.Element?
    requires goal == Then(Say(out), Then(Say(if isFirst then [] else COMMA),
                          Then(if isArray then Say([]) else Then(Say(e.keyJson), Say(COLON)), rest)))
    ensures full ==> Limited(goal, max) == Ok(r)
    ensures !full ==> |r| <= max && goal == Then(Say(r), rest)
  {
    ghost var key := if isArray then Say([]) else Then(Say(e.keyJson), Say(COLON));
    r, full := out, false;
    if !isFirst {
      r, full := Push(r, max, COMMA, Then(key, rest), goal);
      if full { return; }
    } else {
      NothingSaid(r, Then(key, rest));
    }
    if !isArray {
      ThenIsAssociative(Say(e.keyJson), Say(COLON), rest);
      r, full := Push(r, max, e.keyJson, Then(Say(COLON), rest), goal);
      if full { return; }
      r, full := Push(r, max, COLON, rest, goal);
    } else {
      NothingSaid(r, rest);
    }
  }

  datatype Step = Done(result: Result<Text, Failure>) | Enter(elements: seq<Element>, isArray: bool) | Skip | Next

  /** One element that is not hidden: prints it, or opens it if it is a document or an array. */
  method PushElement(out: Text, max: nat, e: Element, isArray: bool, isFirst: bool,
                     ghost rest: seq<Element>, ghost stack: seq<Frame>, ghost otel: bool, ghost goal: Printed)
    returns (r: Text, step: Step)
    requires |out| <= max && e.Element? && !(otel && stack == [] && e.key in HIDDEN_KEYS)
    requires goal == Then(Say(out), Remaining([e] + rest, isArray, isFirst, stack, otel))
    ensures step.Done? ==> Limited(goal, max) == step.result
    ensures step.Enter? ==>
              && |r| <= max && e.value == (if step.isArray then Array(step.elements) else Document(step.elements))
              && goal == Then(Say(r),
                              Remaining(step.elements, step.isArray, true, stack + [Frame(rest, isArray)], otel))
    ensures !step.Skip?
    ensures step.Next? ==> |r| <= max && goal == Then(Say(r), Remaining(rest, isArray, false, stack, otel))
  {
    ElementUnfolds(e, rest, isArray, isFirst, stack, otel);
    ghost var after := Remaining(rest, isArray, false, stack, otel);
    var full;
    r, full := PushPrefix(out, max, e, isArray, isFirst, Then(PrintValue(e.value), after), goal);
    if full { return r, Done(Ok(r)); }
    r, step := PushValue(r, max, e.value, isArray, rest, stack, otel, goal);
  }

  method PushValue(out: Text, max: nat, v: Value, ghost isArray: bool,
                   ghost rest: seq<Element>, ghost stack: seq<Frame>, ghost otel: bool, ghost goal: Printed)
    returns (r: Text, step: Step)
    requires |out| <= max
    requires goal == Then(Say(out), Then(PrintValue(v), Remaining(rest, isArray, false, stack, otel)))
    ensures step.Done? ==> Limited(goal, max) == step.result
    ensures step.Enter? ==>
              && |r| <= max && v == (if step.isArray then Array(step.elements) else Document(step.elements))
              && goal == Then(Say(r),
                              Remaining(step.elements, step.isArray, true, stack + [Frame(rest, isArray)], otel))
    ensures !step.Skip?
    ensures step.Next? ==> |r| <= max && goal == Then(Say(r), Remaining(rest, isArray, false, stack, otel))
  {
    ghost var after := Remaining(rest, isArray, false, stack, otel);
    var full;
    match v {
      case Document(es) =>
        NestedUnfolds(es, false, rest, isArray, stack, otel);
        r, full := Push(out, max, Open(false), Remaining(es, false, true, stack + [Frame(rest, isArray)], otel), goal);
        step := if full then Done(Ok(r)) else Enter(es, false);
      case Array(es) =>
        NestedUnfolds(es, true, rest, isArray, stack, otel);
        r, full := Push(out, max, Open(true), Remaining(es, true, true, stack + [Frame(rest, isArray)], otel), goal);
        step := if full then Done(Ok(r)) else Enter(es, true);
      case BadArray(reason) =>
        BadArrayUnfolds(reason, after);
        r, full := Push(out, max, Open(true), Printed([], Some(reason)), goal);
        if !full { FailureDecides(r, Printed([], Some(reason)), max); }
        step := Done(if full then Ok(r) else Err(reason));
      case Scalar(json) =>
        r, full := Push(out, max, json, after, goal);
        step := if full then Done(Ok(r)) else Next;
      case BadScalar(reason) =>
        FailureDecides(out, Printed([], Some(reason)), max);
        r, step := out, Done(Err(reason));
    }
  }

  /** One element as the iterator yields it. */
  method NextElement(out: Text, max: nat, e: Element, isArray: bool, isFirst: bool,
                     ghost rest: seq<Element>, stack: seq<Frame>, otel: bool, ghost goal: Printed)
    returns (r: Text, step: Step)
    requires |out| <= max && goal == Then(Say(out), Remaining([e] + rest, isArray, isFirst, stack, otel))
    ensures step.Done? ==> Limited(goal, max) == step.result
    ensures step.Enter? ==>
              && |r| <= max && e.Element?
              && e.value == (if step.isArray then Array(step.elements) else Document(step.elements))
              && goal == Then(Say(r),
                              Remaining(step.elements, step.isArray, true, stack + [Frame(rest, isArray)], otel))
    ensures step.Skip? ==> r == out && goal == Then(Say(r), Remaining(rest, isArray, isFirst, stack, otel))
    ensures step.Next? ==> |r| <= max && goal == Then(Say(r), Remaining(rest, isArray, false, stack, otel))
  {
    assert ([e] + rest)[1..] == rest;
    if e.BadElement? {
      FailureDecides(out, Printed([], Some(e.reason)), max);
      return out, Done(Err(e.reason));
    }
    if otel && stack == [] && e.key in HIDDEN_KEYS {
      return out, Skip;
    }
    r, step := PushElement(out, max, e, isArray, isFirst, rest, stack, otel, goal);
  }

  /** The end of a document or array. */
  method CloseBracket(out: Text, max: nat, isArray: bool, ghost isFirst: bool, ghost stack: seq<Frame>,
                      ghost otel: bool, ghost goal: Printed)
    returns (r: Text, full: bool)
    requires |out| <= max && goal == Then(Say(out), Remaining([], isArray, isFirst, stack, otel))
    ensures full ==> Limited(goal, max) == Ok(r)
    ensures !full ==> |r| <= max
    ensures !full && stack == [] ==> Limited(goal, max) == Ok(r)
    ensures !full && stack != [] ==>
              var n := |stack| - 1;
              goal == Then(Say(r), Remaining(stack[n].rest, stack[n].isArray, false, stack[..n], otel))
  {
    r, full := Push(out, max, Close(isArray), Unwind(stack, otel), goal);
    EndsWhole(r);
  }

  /** The inner loop: the elements of one document or array, up to its end or to one that is nested. */
  method PrintLevel(out: Text, max: nat, elements: seq<Element>, isArray: bool, first: bool, stack: seq<Frame>,
                    otel: bool, ghost goal: Printed)
    returns (r: Text, current: seq<Element>, isFirst: bool, step: Step)
    requires |out| <= max && goal == Then(Say(out), Remaining(elements, isArray, first, stack, otel))
    ensures step.Done? ==> Limited(goal, max) == step.result
    ensures !step.Done? ==> |r| <= max
    ensures step.Enter? ==>
              && goal == Then(Say(r),
                              Remaining(step.elements, step.isArray, true, stack + [Frame(current, isArray)], otel))
              && Nodes(step.elements) + Nodes(current) + 1 < Nodes(elements)
    ensures step.Skip? || step.Next? ==>
              current == [] && goal == Then(Say(r), Remaining([], isArray, isFirst, stack, otel))
  {
    r, current, isFirst, step := out, elements, first, Next;
    while current != []
      invariant |r| <= max && goal == Then(Say(r), Remaining(current, isArray, isFirst, stack, otel))
      invariant Nodes(current) <= Nodes(elements) && (step.Skip? || step.Next?)
      decreases Nodes(current)
    {
      var e := current[0];
      assert current == [e] + current[1..];
      current := current[1..];
      r, step := NextElement(r, max, e, isArray, isFirst, current, stack, otel, goal);
      isFirst := isFirst && step.Skip?;
      if step.Done? || step.Enter? {
        return;
      }
    }
  }

  /** The printer never looks at more of the document than it has to, and prints the same text as the
      recursive definition up to the limit. */
  method RawDocToJson(elements: seq<Element>, max: nat, otel: bool) returns (result: Result<Text, Failure>)
    ensures result == Limited(PrintDocument(elements, otel), max)
  {
    ghost var goal := PrintDocument(elements, otel);
    var out: Text := [];
    var stack: seq<Frame> := [];
    var current, isArray, isFirst := elements, false, true;
    var full;
    StartsWhole(elements, otel);
    out, full := Push(out, max, Open(false), Remaining(elements, false, true, [], otel), goal);
    if full { return Ok(out); }
    while true
      invariant |out| <= max && goal == Then(Say(out), Remaining(current, isArray, isFirst, stack, otel))
      decreases Nodes(current) + Pending(stack)
    {
      var step;
      out, current, isFirst, step := PrintLevel(out, max, current, isArray, isFirst, stack, otel, goal);
      match step {
        case Done(r) => return r;
        case Enter(es, nestedArray) =>
          PendingPush(stack, Frame(current, isArray));
          stack := stack + [Frame(current, isArray)];
          current, isArray, isFirst := es, nestedArray, true;
          continue;
        case Skip =>
        case Next =>
      }
      out, full := CloseBracket(out, max, isArray, isFirst, stack, otel, goal);
      if full { return Ok(out); }
      if stack == [] {
        break;
      }
      var top := stack[|stack| - 1];
      stack := stack[..|stack| - 1];
      current, isArray, isFirst := top.rest, top.isArray, false;
    }
    return Ok(out);
  }

  lemma FailureDecides(out: Text, p: Printed, max: nat)
    requires |out| <= max && p.failure.Some? && p.text == []
    ensures Limited(Then(Say(out), p), max) == Err(p.failure.value)
  {
    assert out + [] == out;
  }

  lemma BadArrayUnfolds(reason: Failure, rest: Printed)
    ensures Then(PrintValue(BadArray(reason)), rest) == Then(Say(Open(true)), Printed([], Some(reason)))
  {
    assert Open(true) + [] == Open(true);
  }

  lemma EndsWhole(out: Text)
    ensures Then(Say(out), Say([])) == Say(out)
  {
    assert out + [] == out;
  }

  lemma StartsWhole(elements: seq<Element>, otel: bool)
    ensures PrintDocument(elements, otel) ==
            Then(Say([]), Then(Say(Open(false)), Remaining(elements, false, true, [], otel)))
  {
    var p := PrintElements(elements, false, true, otel);
    assert p.text + [] == p.text;
    assert Then(p, Unwind([], otel)) == p;
    assert [] + (Open(false) + p.text) == Open(false) + p.text;
  }

  // ---------------------------------------------------------------------
  // What the text is, and what a limit does to it
  // ---------------------------------------------------------------------

  predicate Clean(v: Value)
    decreases v
  {
    match v
    case Document(es) => CleanAll(es)
    case Array(es) => CleanAll(es)
    case Scalar(_) => true
    case _ => false
  }

  predicate CleanAll(es: seq<Element>)
    decreases es
  {
    es != [] ==> es[0].Element? && Clean(es[0].value) && CleanAll(es[1..])
  }

  /** Members separated by commas. */
  function Join(parts: seq<Bytes>): Bytes {
    if parts == [] then [] else if |parts| == 1 then parts[0] else parts[0] + COMMA + Join(parts[1..])
  }

  function Json(v: Value): Bytes
    requires Clean(v)
    decreases v
  {
    match v
    case Document(es) => Open(false) + Join(Members(es, false, false)) + Close(false)
    case Array(es) => Open(true) + Join(Members(es, true, false)) + Close(true)
    case Scalar(json) => json
  }

  /** The texts of the elements, without the hidden ones. */
  function Members(es: seq<Element>, isArray: bool, hiding: bool): seq<Bytes>
    requires CleanAll(es)
    decreases es
  {
    if es == [] then []
    else if hiding && es[0].key in HIDDEN_KEYS then Members(es[1..], isArray, hiding)
    else [(if isArray then [] else es[0].keyJson + COLON) + Json(es[0].value)] + Members(es[1..], isArray, hiding)
  }

  function JsonDocument(es: seq<Element>, otel: bool): Bytes
    requires CleanAll(es)
  {
    Open(false) + Join(Members(es, false, otel)) + Close(false)
  }

  lemma {:induction false} ValuePrintsJson(v: Value)
    requires Clean(v)
    ensures PrintValue(v).text == Json(v) && PrintValue(v).failure.None?
    decreases v
  {
    match v
    case Document(es) =>
      ElementsPrintMembers(es, false, true, false);
      Bracketed(Open(false), PrintElements(es, false, true, false), Join(Members(es, false, false)), Close(false));
    case Array(es) =>
      ElementsPrintMembers(es, true, true, false);
      Bracketed(Open(true), PrintElements(es, true, true, false), Join(Members(es, true, false)), Close(true));
    case Scalar(_) =>
  }

  lemma Bracketed(open: Text, p: Printed, members: Bytes, close: Text)
    requires p.text == [] + members + close && p.failure.None?
    ensures Then(Say(open), p) == Printed(Then(Say(open), p).text, None)
    ensures Then(Say(open), p).text == open + members + close
  {
    assert open + ([] + members + close) == open + members + close;
  }

  lemma {:induction false} ElementsPrintMembers(es: seq<Element>, isArray: bool, isFirst: bool, hiding: bool)
    requires CleanAll(es)
    ensures var parts, p := Members(es, isArray, hiding), PrintElements(es, isArray, isFirst, hiding);
            && p.text == (if isFirst || parts == [] then [] else COMMA) + Join(parts) + Close(isArray)
            && p.failure.None?
    decreases es
  {
    if es != [] {
      if hiding && es[0].key in HIDDEN_KEYS {
        ElementsPrintMembers(es[1..], isArray, isFirst, hiding);
      } else {
        ValuePrintsJson(es[0].value);
        ElementsPrintMembers(es[1..], isArray, false, hiding);
        OneMoreMember(es[0], PrintValue(es[0].value), PrintElements(es[1..], isArray, false, hiding),
                      Members(es[1..], isArray, hiding), isArray, isFirst);
      }
    }
  }

  lemma OneMoreMember(e: Element, value: Printed, rest: Printed, parts: seq<Bytes>, isArray: bool, isFirst: bool)
    requires e.Element? && value.failure.None? && rest.failure.None?
    requires rest.text == (if parts == [] then [] else COMMA) + Join(parts) + Close(isArray)
    ensures var member := (if isArray then [] else e.keyJson + COLON) + value.text;
            Then(Prefix(e, isArray, isFirst), Then(value, rest)).text ==
            (if isFirst then [] else COMMA) + Join([member] + parts) + Close(isArray)
  {
    var lead: Text := if isFirst then [] else COMMA;
    var key: Bytes := if isArray then [] else e.keyJson + COLON;
    var sep: Bytes := if parts == [] then [] else COMMA;
    PrefixText(e, isArray, isFirst);
    JoinOne(key + value.text, parts);
    Regroup(lead, key, value.text, sep, Join(parts), Close(isArray));
  }

  lemma PrefixText(e: Element, isArray: bool, isFirst: bool)
    requires e.Element?
    ensures var p := Prefix(e, isArray, isFirst);
            p.failure.None? && p.text == (if isFirst then [] else COMMA) + (if isArray then [] else e.keyJson + COLON)
  {
  }

  lemma JoinOne(member: Bytes, parts: seq<Bytes>)
    ensures Join([member] + parts) == member + ((if parts == [] then [] else COMMA) + Join(parts))
  {
    assert ([member] + parts)[1..] == parts;
  }

  lemma Regroup(a: Bytes, b: Bytes, c: Bytes, d: Bytes, e: Bytes, f: Bytes)
    ensures (a + b) + (c + (d + e + f)) == a + ((b + c) + (d + e)) + f
  {
  }

  lemma DocumentPrintsJson(es: seq<Element>, otel: bool)
    requires CleanAll(es)
    ensures PrintDocument(es, otel).text == JsonDocument(es, otel) && PrintDocument(es, otel).failure.None?
  {
    ElementsPrintMembers(es, false, true, otel);
  }

  /** A well-formed document is printed whole if it fits. Otherwise some of it is cut off, at the first
      character boundary the limit allows, and an ellipsis says so. */
  lemma LimitedMeans(es: seq<Element>, otel: bool, max: nat)
    requires CleanAll(es)
    ensures var json, r := JsonDocument(es, otel), Limited(PrintDocument(es, otel), max);
            && r.Ok?
            && (|json| <= max ==> r.value == json)
            && (|json| > max ==>
                  var i := Ceiling(json, max);
                  i < |json| && r.value == json[..i] + ELLIPSIS)
  {
    DocumentPrintsJson(es, otel);
    var json := JsonDocument(es, otel);
    if |json| > max {
      assert Boundary(json, |json| - 1);
    }
  }

  // ---------------------------------------------------------------------
  // Malformed documents
  // ---------------------------------------------------------------------

  /** The elements that are printed at the top level. */
  function Visible(es: seq<Element>, otel: bool): seq<Element> {
    if es == [] then []
    else if otel && es[0].Element? && es[0].key in ["lsid", "$db", "$clusterTime", "signature"] then
      Visible(es[1..], otel)
    else [es[0]] + Visible(es[1..], otel)
  }

  /** The members before element `k` and, if that element has a key and the beginning of a value, what there is
      of it. */
  function MembersBefore(es: seq<Element>, isArray: bool, k: nat, begun: Bytes): seq<Bytes>
    requires k < |es| && CleanAll(es[..k])
  {
    Members(es[..k], isArray, false) +
    (if es[k].BadElement? then [] else [(if isArray then [] else es[k].keyJson + COLON) + begun])
  }

  /** Element `k` is the first malformed one, or has the first malformed value, after `begun` of that value. */
  ghost predicate StopsIn(es: seq<Element>, k: nat, begun: Bytes, reason: Failure)
    decreases es, 0
  {
    && k < |es| && CleanAll(es[..k])
    && if es[k].BadElement? then reason == es[k].reason else StopsAt(es[k].value, begun, reason)
  }

  /** The value is malformed for this reason, after a beginning whose text is `text`. */
  ghost predicate StopsAt(v: Value, text: Bytes, reason: Failure)
    decreases v, 1
  {
    match v
    case Scalar(_) => false
    case BadScalar(r) => text == [] && reason == r
    case BadArray(r) => text == Open(true) && reason == r
    case Document(es) =>
      exists k: nat, begun ::
        StopsIn(es, k, begun, reason) && text == Open(false) + Join(MembersBefore(es, false, k, begun))
    case Array(es) =>
      exists k: nat, begun ::
        StopsIn(es, k, begun, reason) && text == Open(true) + Join(MembersBefore(es, true, k, begun))
  }

  lemma {:induction false} HiddenAreLeftOut(es: seq<Element>, isFirst: bool, otel: bool)
    ensures PrintElements(es, false, isFirst, otel) == PrintElements(Visible(es, otel), false, isFirst, false)
    decreases es
  {
    if es != [] && es[0].Element? {
      if otel && es[0].key in HIDDEN_KEYS {
        HiddenAreLeftOut(es[1..], isFirst, otel);
      } else {
        HiddenAreLeftOut(es[1..], false, otel);
        assert Visible(es, otel)[1..] == Visible(es[1..], otel);
      }
    }
  }

  lemma {:induction false} StoppedValuePrints(v: Value, text: Bytes, reason: Failure)
    requires StopsAt(v, text, reason)
    ensures PrintValue(v).text == text && PrintValue(v).failure == Some(reason)
    decreases v, 1
  {
    match v
    case Document(es) =>
      var k: nat, begun :|
        StopsIn(es, k, begun, reason) && text == Open(false) + Join(MembersBefore(es, false, k, begun));
      StoppedElementsPrint(es, false, true, k, begun, reason);
      BracketStops(Open(false), PrintElements(es, false, true, false), Join(MembersBefore(es, false, k, begun)),
                   reason);
    case Array(es) =>
      var k: nat, begun :|
        StopsIn(es, k, begun, reason) && text == Open(true) + Join(MembersBefore(es, true, k, begun));
      StoppedElementsPrint(es, true, true, k, begun, reason);
      BracketStops(Open(true), PrintElements(es, true, true, false), Join(MembersBefore(es, true, k, begun)), reason);
    case _ =>
  }

  lemma BracketStops(open: Text, p: Printed, members: Bytes, reason: Failure)
    requires p.text == [] + members && p.failure == Some(reason)
    ensures Then(Say(open), p).text == open + members && Then(Say(open), p).failure == Some(reason)
  {
    assert [] + members == members;
  }

  lemma {:induction false} StoppedElementsPrint(es: seq<Element>, isArray: bool, isFirst: bool, k: nat, begun: Bytes,
                                                reason: Failure)
    requires StopsIn(es, k, begun, reason)
    ensures var parts, p := MembersBefore(es, isArray, k, begun), PrintElements(es, isArray, isFirst, false);
            p.failure == Some(reason) && p.text == (if isFirst || parts == [] then [] else COMMA) + Join(parts)
    decreases es, 0
  {
    var parts := MembersBefore(es, isArray, k, begun);
    if k == 0 {
      assert es[..0] == [];
      if es[0].Element? {
        StoppedValuePrints(es[0].value, begun, reason);
        PrefixText(es[0], isArray, isFirst);
        LastMember(es[0], PrintValue(es[0].value), PrintElements(es[1..], isArray, false, false), isArray, isFirst);
        assert parts == [(if isArray then [] else es[0].keyJson + COLON) + begun];
      }
    } else {
      assert es[..k][0] == es[0] && es[..k][1..] == es[1..][..k - 1] && es[1..][k - 1] == es[k];
      StoppedElementsPrint(es[1..], isArray, false, k - 1, begun, reason);
      ValuePrintsJson(es[0].value);
      var rest := MembersBefore(es[1..], isArray, k - 1, begun);
      var member := (if isArray then [] else es[0].keyJson + COLON) + Json(es[0].value);
      assert parts == [member] + rest;
      MemberThenStop(es[0], PrintValue(es[0].value), PrintElements(es[1..], isArray, false, false), rest, isArray,
                     isFirst);
    }
  }

  lemma LastMember(e: Element, value: Printed, rest: Printed, isArray: bool, isFirst: bool)
    requires e.Element? && value.failure.Some?
    ensures var p := Then(Prefix(e, isArray, isFirst), Then(value, rest));
            && p.failure == value.failure
            && p.text == (if isFirst then [] else COMMA) + ((if isArray then [] else e.keyJson + COLON) + value.text)
  {
    PrefixText(e, isArray, isFirst);
    var lead: Text := if isFirst then [] else COMMA;
    var key: Bytes := if isArray then [] else e.keyJson + COLON;
    assert (lead + key) + value.text == lead + (key + value.text);
  }

  lemma MemberThenStop(e: Element, value: Printed, rest: Printed, parts: seq<Bytes>, isArray: bool, isFirst: bool)
    requires e.Element? && value.failure.None? && rest.failure.Some?
    requires rest.text == (if parts == [] then [] else COMMA) + Join(parts)
    ensures var member := (if isArray then [] else e.keyJson + COLON) + value.text;
            var p := Then(Prefix(e, isArray, isFirst), Then(value, rest));
            p.failure == rest.failure && p.text == (if isFirst then [] else COMMA) + Join([member] + parts)
  {
    var lead: Text := if isFirst then [] else COMMA;
    var key: Bytes := if isArray then [] else e.keyJson + COLON;
    var sep: Bytes := if parts == [] then [] else COMMA;
    PrefixText(e, isArray, isFirst);
    JoinOne(key + value.text, parts);
    RegroupTail(lead, key, value.text, sep + Join(parts));
  }

  lemma RegroupTail(a: Bytes, b: Bytes, c: Bytes, d: Bytes)
    ensures (a + b) + (c + d) == a + ((b + c) + d)
  {
  }

  /** A value is well formed, or stops somewhere. */
  lemma {:induction false} CleanOrStops(v: Value)
    ensures Clean(v) || exists text, reason :: StopsAt(v, text, reason)
    decreases v, 1
  {
    match v
    case Document(es) =>
      if !CleanAll(es) {
        var k, begun, reason := StopsSomewhere(es);
        assert StopsAt(v, Open(false) + Join(MembersBefore(es, false, k, begun)), reason);
      }
    case Array(es) =>
      if !CleanAll(es) {
        var k, begun, reason := StopsSomewhere(es);
        assert StopsAt(v, Open(true) + Join(MembersBefore(es, true, k, begun)), reason);
      }
    case BadArray(r) => assert StopsAt(v, Open(true), r);
    case BadScalar(r) => assert StopsAt(v, [], r);
    case Scalar(_) =>
  }

  lemma {:induction false} StopsSomewhere(es: seq<Element>) returns (k: nat, begun: Bytes, reason: Failure)
    requires !CleanAll(es)
    ensures StopsIn(es, k, begun, reason)
    decreases es, 0
  {
    if es[0].BadElement? {
      k, begun, reason := 0, [], es[0].reason;
    } else if !Clean(es[0].value) {
      CleanOrStops(es[0].value);
      k := 0;
      begun, reason :| StopsAt(es[0].value, begun, reason);
    } else {
      k, begun, reason := StopsSomewhere(es[1..]);
      assert es[..k + 1][0] == es[0] && es[..k + 1][1..] == es[1..][..k] && es[1..][k] == es[k + 1];
      k := k + 1;
    }
  }

  /** The text before the first malformed part decides: if it fits, the failure is returned, and otherwise the
      beginning of that text, as if nothing were wrong. */
  predicate StopsWith(text: Bytes, reason: Failure, max: nat, r: Result<Text, Failure>) {
    if |text| <= max then r == Err(reason) else r.Ok? && r.value == text[..Ceiling(text, max)] + ELLIPSIS
  }

  lemma LimitedStops(p: Printed, max: nat)
    requires p.failure.Some?
    ensures StopsWith(p.text, p.failure.value, max, Limited(p, max))
  {
  }

  lemma StoppedDocumentPrints(es: seq<Element>, k: nat, begun: Bytes, reason: Failure)
    requires StopsIn(es, k, begun, reason)
    ensures var p := PrintDocument(es, false);
            p.text == Open(false) + Join(MembersBefore(es, false, k, begun)) && p.failure == Some(reason)
  {
    StoppedElementsPrint(es, false, true, k, begun, reason);
    BracketStops(Open(false), PrintElements(es, false, true, false), Join(MembersBefore(es, false, k, begun)), reason);
  }

  function JsonText(es: seq<Element>): Text
    requires CleanAll(es)
  {
    DocumentPrintsJson(es, false);
    JsonDocument(es, false)
  }

  /** Any document at all: what is shown of it is well formed, and its text is returned or the beginning of it; or
      there is a first malformed part, and the text before it decides. */
  lemma MalformedMeans(es: seq<Element>, otel: bool, max: nat)
    ensures var shown, r := Visible(es, otel), Limited(PrintDocument(es, otel), max);
            if CleanAll(shown) then r == Limited(Say(JsonText(shown)), max)
            else exists k: nat, begun, reason ::
                   && StopsIn(shown, k, begun, reason)
                   && StopsWith(Open(false) + Join(MembersBefore(shown, false, k, begun)), reason, max, r)
  {
    var shown := Visible(es, otel);
    HiddenAreLeftOut(es, true, otel);
    assert PrintDocument(es, otel) == PrintDocument(shown, false);
    if CleanAll(shown) {
      DocumentPrintsJson(shown, false);
    } else {
      var k, begun, reason := StopsSomewhere(shown);
      StoppedDocumentPrints(shown, k, begun, reason);
      LimitedStops(PrintDocument(shown, false), max);
    }
  }

  /** Whatever the document, at most six bytes over the limit are returned. */
  lemma LimitedIsShort(p: Printed, max: nat)
    ensures var r := Limited(p, max); r.Ok? ==> |r.value| <= max + 6
  {
    if |p.text| > max {
      CeilingIsNear(p.text, max);
    }
  }
}
