/**
 * The response envelope every controller wraps its service call in: the
 * callback's value becomes a `success` envelope with the given status code
 * and message, and anything it throws becomes an `error` envelope whose
 * status and message are read off the thrown object, with fallbacks.
 */
module Envelope {

  import opened Outcomes
  import Text

  const DefaultMessage: string := "Request successful"
  const DefaultStatusCode: int := 200
  const Separator: string := ", "
  const FallbackMessage: string := "Something went wrong"

  /** `err.response.message`: a single string, or the list a validation pipe produces. */
  datatype ResponseMessage = Line(line: string) | Lines(lines: seq<string>)

  /**
   * The parts of a thrown object the envelope reads; `None` is an absent
   * property. A status of 0 and an empty string are falsy like an absent one.
   */
  datatype Thrown = Thrown(
    responseStatusCode: Option<int>,
    status: Option<int>,
    responseMessage: Option<ResponseMessage>,
    message: Option<string>)

  /** How the callback ended. */
  datatype Completion<T> = Returned(value: T) | Threw(err: Thrown)

  datatype Reply<T> = Reply(statusCode: int, status: string, message: string, data: Option<T>)

  predicate TruthyCode(c: Option<int>)
  {
    c.Some? && c.value != 0
  }

  predicate TruthyText(s: Option<string>)
  {
    s.Some? && s.value != ""
  }

  /** `err?.response?.statusCode || err?.status || 500`. */
  function ErrorStatusCode(err: Thrown): (code: int)
    ensures code != 0
    ensures TruthyCode(err.responseStatusCode) ==> code == err.responseStatusCode.value
    ensures !TruthyCode(err.responseStatusCode) && TruthyCode(err.status) ==> code == err.status.value
    ensures !TruthyCode(err.responseStatusCode) && !TruthyCode(err.status) ==> code == 500
  {
    if TruthyCode(err.responseStatusCode) then err.responseStatusCode.value
    else if TruthyCode(err.status) then err.status.value
    else 500
  }

  /** The response message if it is a truthy string, else the error's own message, else the fallback. */
  function StringMessage(responseMessage: Option<string>, message: Option<string>): (m: string)
    ensures m != ""
    ensures TruthyText(responseMessage) ==> m == responseMessage.value
    ensures !TruthyText(responseMessage) && TruthyText(message) ==> m == message.value
    ensures !TruthyText(responseMessage) && !TruthyText(message) ==> m == FallbackMessage
  {
    if TruthyText(responseMessage) then responseMessage.value
    else if TruthyText(message) then message.value
    else FallbackMessage
  }

  /** A list is joined with `, ` and never falls back, even when it is empty. */
  function ErrorMessage(err: Thrown): (m: string)
    ensures err.responseMessage.Some? && err.responseMessage.value.Lines? ==>
      (forall i :: 0 <= i < |err.responseMessage.value.lines| ==>
         Text.Contains(m, err.responseMessage.value.lines[i]))
      && (err.responseMessage.value.lines == [] ==> m == "")
    ensures err.responseMessage.Some? && err.responseMessage.value.Lines? && |err.responseMessage.value.lines| == 1 ==>
      m == err.responseMessage.value.lines[0]
    ensures err.responseMessage.Some? && err.responseMessage.value.Lines? && |err.responseMessage.value.lines| >= 2 ==>
      var lines := err.responseMessage.value.lines;
      m == lines[0] + Separator + Text.Join(lines[1..], Separator)
    ensures !(err.responseMessage.Some? && err.responseMessage.value.Lines?) ==> m != ""
  {
    match err.responseMessage
    case Some(Lines(lines)) =>
      JoinHoldsEach(lines, Separator);
      assert |lines| >= 2 ==> Text.Join(lines, Separator) == lines[0] + Separator + Text.Join(lines[1..], Separator) by {
        if |lines| >= 2 {
          Text.JoinFront(lines, Separator);
        }
      }
      Text.Join(lines, Separator)
    case Some(Line(line)) => StringMessage(Some(line), err.message)
    case None => StringMessage(None, err.message)
  }

  /** handleRequest: the envelope for the callback's completion. */
  function HandleRequest<T>(c: Completion<T>, message: string, successStatusCode: int): (r: Reply<T>)
    ensures r.status == "success" <==> c.Returned?
    ensures r.status == "error" <==> c.Threw?
    ensures c.Returned? ==> r == Reply(successStatusCode, "success", message, Some(c.value))
    ensures c.Threw? ==> r.data.None? && r.statusCode == ErrorStatusCode(c.err) && r.message == ErrorMessage(c.err)
  {
    match c
    case Returned(v) => Reply(successStatusCode, "success", message, Some(v))
    case Threw(err) => Reply(ErrorStatusCode(err), "error", ErrorMessage(err), None)
  }

  /**
   * With the default arguments a success is `200` with 'Request successful';
   * a failure's envelope does not depend on either argument.
   */
  lemma DefaultArguments<T>(c: Completion<T>, message: string, successStatusCode: int)
    ensures c.Returned? ==>
      HandleRequest(c, DefaultMessage, DefaultStatusCode) == Reply(200, "success", "Request successful", Some(c.value))
    ensures c.Threw? ==> HandleRequest(c, message, successStatusCode) == HandleRequest(c, DefaultMessage, DefaultStatusCode)
  {
  }

  // ---------------------------------------------------------------------------
  // The exceptions the services throw

  /**
   * The object a failure is thrown as. An HttpException built from a message
   * carries `{ statusCode, message }` as its response and the status code as
   * `status`; any other error carries only its message.
   */
  function ThrownFrom<T>(o: Outcome<T>): (err: Thrown)
    requires o.IsFailure()
    ensures o.Internal? <==> err.status.None?
  {
    if o.Internal? then Thrown(None, None, None, Some(o.msg))
    else Thrown(Some(o.StatusCode()), Some(o.StatusCode()), Some(Line(o.msg)), Some(o.msg))
  }

  /** A failing service call is reported with its exception's status code and its own message. */
  lemma FailureEnvelope<T, U>(o: Outcome<T>, message: string, successStatusCode: int)
    requires o.IsFailure() && o.msg != ""
    ensures var r := HandleRequest<U>(Threw(ThrownFrom(o)), message, successStatusCode);
      r.status == "error" && r.statusCode == o.StatusCode() && r.message == o.msg && r.data.None?
  {
  }

  /** A message-less error that is not an HttpException is reported as a 500 with the fallback text. */
  lemma BlankInternalEnvelope<U>(message: string, successStatusCode: int)
    ensures var r := HandleRequest<U>(Threw(ThrownFrom<U>(Internal(""))), message, successStatusCode);
      r.statusCode == 500 && r.message == FallbackMessage
  {
  }

  // ---------------------------------------------------------------------------
  // Joining a list of messages

  lemma OccursInPrefix(a: string, b: string, sub: string, j: int)
    requires Text.OccursAt(a, sub, j)
    ensures Text.OccursAt(a + b, sub, j)
  {
    assert (a + b)[j..j + |sub|] == a[j..j + |sub|];
  }

  /** Every joined message appears in the joined text. */
  lemma {:induction false} JoinHoldsEach(parts: seq<string>, sep: string)
    ensures forall i :: 0 <= i < |parts| ==> Text.Contains(Text.Join(parts, sep), parts[i])
    decreases |parts|
  {
    if |parts| == 1 {
      assert Text.OccursAt(parts[0], parts[0], 0);
    } else if |parts| > 1 {
      var init := parts[..|parts| - 1];
      var last := parts[|parts| - 1];
      var head := Text.Join(init, sep) + sep;
      var s := Text.Join(parts, sep);
      assert s == head + last;
      JoinHoldsEach(init, sep);
      forall i | 0 <= i < |parts|
        ensures Text.Contains(s, parts[i])
      {
        if i == |parts| - 1 {
          assert s[|head|..|head| + |last|] == last;
          assert Text.OccursAt(s, parts[i], |head|);
        } else {
          assert parts[i] == init[i];
          var j :| 0 <= j <= |Text.Join(init, sep)| - |init[i]| && Text.OccursAt(Text.Join(init, sep), init[i], j);
          OccursInPrefix(Text.Join(init, sep), sep + last, init[i], j);
          assert Text.Join(init, sep) + (sep + last) == s;
        }
      }
    }
  }
}
