/**
  `ErrorsStreamService`: classifies a failed request by its HTTP status into
  one of the `TypeError` subclasses, with a message from the locale table
  `enMsgs`, and publishes it once on the error stream, tagged with the call
  site (`errorPoint`).
*/
module ErrorsStream {
  import opened Wrappers
  import opened JsValues

  /** The `TypeError` subclasses; the class tag is the error's `name`. */
  datatype ErrorKind = AuthError | ClientError | ServerError | DisconnectedError | UnusualError | TimeoutError

  function KindName(k: ErrorKind): string
  {
    match k
    case AuthError => "AuthError"
    case ClientError => "ClientError"
    case ServerError => "ServerError"
    case DisconnectedError => "DisconnectedError"
    case UnusualError => "UnusualError"
    case TimeoutError => "TimeoutError"
  }

  /** What a failed request rejects with; the classifier reads only its `status`. */
  datatype Raw = Raw(name: string, message: string, status: Option<int>)

  /** An instance of a `TypeError` subclass: its tag, its message and the failure it wraps. */
  datatype ErrorObj = ErrorObj(name: string, message: Option<string>, cause: Raw)

  /** One emission of the error stream. */
  datatype ErrorEvent = ErrorEvent(error: ErrorObj, errorPoint: string)

  /** The locale message table, `enMsgs`; a key it lacks reads as `undefined`. */
  type Messages = map<string, string>

  function Message(msgs: Messages, key: string): Option<string>
  {
    if key in msgs then Some(msgs[key]) else None
  }

  const UnusualKey: string := "unusual"

  /** The statuses `defaultProcessing` lists as client errors. */
  const ClientCodes: set<int> :=
    {400, 401, 402, 403, 404, 405, 406, 407, 408, 409, 410, 411, 412, 413, 414, 415, 416, 417,
     422, 423, 424, 425, 426, 428, 429, 431, 444, 449, 451}

  /** The statuses `defaultProcessing` lists as server errors. */
  const ServerCodes: set<int> :=
    {500, 501, 502, 503, 504, 505, 506, 507, 508, 509, 510, 511, 520, 521, 522, 523, 524, 525, 526}

  /** `new <Kind>Error(message, cause)`. */
  function NewError(kind: ErrorKind, message: Option<string>, cause: Raw): (r: ErrorObj)
    ensures r.name == KindName(kind) && r.message == message && r.cause == cause
  {
    ErrorObj(KindName(kind), message, cause)
  }

  /** `new TimeoutError(message)` as the promise path throws it: a failure with status 408. */
  function NewTimeoutError(message: string): (r: Raw)
    ensures r.name == KindName(TimeoutError) && r.message == message && r.status == Some(408)
  {
    Raw("TimeoutError", message, Some(408))
  }

  /** The `switch (e.status)` of `defaultProcessing`: which class a status gets. */
  function Classify(status: Option<int>): (k: ErrorKind)
    ensures k == DisconnectedError <==> status == Some(0)
    ensures k == ClientError <==> status.Some? && status.value in ClientCodes
    ensures k == ServerError <==> status.Some? && status.value in ServerCodes
    ensures k == UnusualError <==>
              !(status.Some? && (status.value == 0 || status.value in ClientCodes || status.value in ServerCodes))
  {
    if status == Some(0) then DisconnectedError
    else if status.Some? && status.value in ClientCodes then ClientError
    else if status.Some? && status.value in ServerCodes then ServerError
    else UnusualError
  }

  /** The key of `enMsgs` each case reads: the status code itself, or `'unusual'`. */
  function MessageKey(status: Option<int>): (key: string)
    ensures Classify(status) == UnusualError ==> key == UnusualKey
    ensures Classify(status) != UnusualError ==> status.Some? && status.value >= 0 && key == NatToString(status.value)
  {
    if Classify(status) == UnusualError then UnusualKey else NatToString(status.value)
  }

  /** The error object `defaultProcessing` emits for a failure `e`. */
  function Classified(e: Raw, msgs: Messages): (r: ErrorObj)
    ensures r.cause == e
    ensures r.name == KindName(Classify(e.status))
    ensures r.message == Message(msgs, MessageKey(e.status))
  {
    NewError(Classify(e.status), Message(msgs, MessageKey(e.status)), e)
  }

  /** The listed client statuses are exactly the ranges 400-417 and 422-426 and six single codes. */
  lemma ClientCodesAreRanges(s: int)
    ensures s in ClientCodes <==>
              (400 <= s <= 417 || 422 <= s <= 426 || s in {428, 429, 431, 444, 449, 451})
  {
  }

  /** The listed server statuses are exactly the ranges 500-511 and 520-526. */
  lemma ServerCodesAreRanges(s: int)
    ensures s in ServerCodes <==> (500 <= s <= 511 || 520 <= s <= 526)
  {
  }

  /** Status 0 becomes a `DisconnectedError` carrying `enMsgs['0']`. */
  lemma DisconnectedClassification(e: Raw, msgs: Messages)
    requires e.status == Some(0)
    ensures Classified(e, msgs) == ErrorObj("DisconnectedError", Message(msgs, "0"), e)
  {
    assert NatToString(0) == "0";
  }

  /** A listed client status becomes a `ClientError` carrying the message stored under that code. */
  lemma ClientClassification(e: Raw, msgs: Messages, code: int)
    requires e.status == Some(code) && code in ClientCodes
    ensures Classified(e, msgs) == ErrorObj("ClientError", Message(msgs, NatToString(code)), e)
  {
  }

  /** A listed server status becomes a `ServerError` carrying the message stored under that code. */
  lemma ServerClassification(e: Raw, msgs: Messages, code: int)
    requires e.status == Some(code) && code in ServerCodes
    ensures Classified(e, msgs) == ErrorObj("ServerError", Message(msgs, NatToString(code)), e)
  {
  }

  /** Any other status, or none at all, becomes an `UnusualError` carrying `enMsgs['unusual']`. */
  lemma UnusualClassification(e: Raw, msgs: Messages)
    requires e.status.None? || (e.status.value != 0 && e.status.value !in ClientCodes && e.status.value !in ServerCodes)
    ensures Classified(e, msgs) == ErrorObj("UnusualError", Message(msgs, UnusualKey), e)
  {
  }

  /** Two failures with different classified statuses never share a message slot. */
  lemma DistinctCodesDistinctMessages(s: Option<int>, t: Option<int>)
    requires Classify(s) != UnusualError && Classify(t) != UnusualError
    requires s != t
    ensures MessageKey(s) != MessageKey(t)
  {
    if MessageKey(s) == MessageKey(t) {
      NatToStringInjective(s.value, t.value);
    }
  }

  /** A timeout thrown by the promise path is reported as a `ClientError` with `enMsgs['408']`. */
  lemma TimeoutClassification(message: string, msgs: Messages)
    ensures Classified(NewTimeoutError(message), msgs) ==
              ErrorObj("ClientError", Message(msgs, "408"), NewTimeoutError(message))
  {
    assert DigitChar(4) == '4' && DigitChar(0) == '0' && DigitChar(8) == '8';
    assert NatToString(4) == "4";
    assert NatToString(40) == NatToString(4) + "0" == "40";
    assert NatToString(408) == NatToString(40) + "8" == "408";
  }

  class ErrorsStreamService {
    /** Everything emitted on `errorsStream$` so far, oldest first. */
    var events: seq<ErrorEvent>

    constructor ()
      ensures events == []
    {
      events := [];
    }

    /** `emitError`: publishes one event. */
    method EmitError(error: ErrorObj, errorPoint: string)
      modifies this
      ensures events == old(events) + [ErrorEvent(error, errorPoint)]
    {
      events := events + [ErrorEvent(error, errorPoint)];
    }

    /** `defaultProcessing`: publishes exactly one classified event for `e`, tagged with `errorPoint`. */
    method DefaultProcessing(e: Raw, errorPoint: string, msgs: Messages)
      modifies this
      ensures events == old(events) + [ErrorEvent(Classified(e, msgs), errorPoint)]
    {
      var kind := Classify(e.status);
      var message := Message(msgs, MessageKey(e.status));
      EmitError(NewError(kind, message, e), errorPoint);
    }
  }
}
