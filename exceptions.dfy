/**
 * `BaseExceptionWithLogs` and its status-coded subclasses: frozen records
 * of an item and a message, the logger they report to, and the HTTP status
 * the interface layer answers with.
 */
module ExceptionsWithLogs {

  /** The `log` field: absent (None), a given `AttributeLogger`, or the default one made in `__post_init__`. */
  datatype LogHandle = NoLog | GivenLog(id: nat) | DefaultLog

  /** An exception instance after construction. */
  datatype ExceptionWithLogs = ExceptionWithLogs(item: string, message: string, log: LogHandle, statusCode: int)

  const HttpBadRequest: int := 400
  const HttpUnauthorized: int := 401
  const HttpForbidden: int := 403
  const HttpNotFound: int := 404

  /**
   * `BaseExceptionWithLogs(item, message, log, status_code)` with the
   * dataclass defaults (no log, status 400) and `__post_init__`, which
   * replaces a missing log by the default logger. Nothing else changes.
   */
  function NewException(item: string, message: string, log: LogHandle, statusCode: int := HttpBadRequest)
    : (e: ExceptionWithLogs)
    ensures e.item == item && e.message == message && e.statusCode == statusCode
    ensures e.log != NoLog
    ensures log != NoLog ==> e.log == log
  {
    ExceptionWithLogs(item, message, if log == NoLog then DefaultLog else log, statusCode)
  }

  /** `Status401Exception(item, message, log)`. */
  function Status401(item: string, message: string, log: LogHandle): (e: ExceptionWithLogs)
    ensures e == NewException(item, message, log).(statusCode := 401)
  {
    NewException(item, message, log, HttpUnauthorized)
  }

  /** `Status400Exception(item, message, log)`. */
  function Status400(item: string, message: string, log: LogHandle): (e: ExceptionWithLogs)
    ensures e == NewException(item, message, log) && e.statusCode == 400
  {
    NewException(item, message, log, HttpBadRequest)
  }

  /** `Status403Exception(item, message, log)`. */
  function Status403(item: string, message: string, log: LogHandle): (e: ExceptionWithLogs)
    ensures e == NewException(item, message, log).(statusCode := 403)
  {
    NewException(item, message, log, HttpForbidden)
  }

  /** `Status404Exception(item, message, log)`. */
  function Status404(item: string, message: string, log: LogHandle): (e: ExceptionWithLogs)
    ensures e == NewException(item, message, log).(statusCode := 404)
  {
    NewException(item, message, log, HttpNotFound)
  }

  /** The four subclasses differ only in their status code, which is the one their name says. */
  lemma StatusCodes(item: string, message: string, log: LogHandle)
    ensures Status401(item, message, log).statusCode == 401
    ensures Status400(item, message, log).statusCode == 400
    ensures Status403(item, message, log).statusCode == 403
    ensures Status404(item, message, log).statusCode == 404
    ensures Status400(item, message, log) == Status404(item, message, log).(statusCode := 400)
  {
  }

  /** `error_data()`: exactly the item and the message (the logging of it is not modelled). */
  function ErrorData(e: ExceptionWithLogs): (d: map<string, string>)
    ensures d.Keys == {"item", "message"}
    ensures d["item"] == e.item && d["message"] == e.message
  {
    map["item" := e.item, "message" := e.message]
  }

  /** `str(e)`: "item: message". */
  function Str(e: ExceptionWithLogs): (s: string)
    ensures |s| == |e.item| + 2 + |e.message|
    ensures s[..|e.item|] == e.item && s[|e.item|..|e.item| + 2] == ": " && s[|e.item| + 2..] == e.message
  {
    e.item + ": " + e.message
  }

  /** `s` contains no ": ". */
  predicate NoSeparator(s: string)
  {
    forall i :: 0 <= i < |s| - 1 ==> !(s[i] == ':' && s[i + 1] == ' ')
  }

  /**
   * For an item without ": " the string form splits back into item and
   * message at its first ": ".
   */
  lemma StrSplitsAtFirstSeparator(e: ExceptionWithLogs)
    requires NoSeparator(e.item)
    ensures forall j :: 0 <= j < |e.item| ==> !(Str(e)[j] == ':' && Str(e)[j + 1] == ' ')
    ensures Str(e)[|e.item|..|e.item| + 2] == ": "
  {
    var s := Str(e);
    forall j | 0 <= j < |e.item|
      ensures !(s[j] == ':' && s[j + 1] == ' ')
    {
      if j + 1 < |e.item| {
        assert s[j] == e.item[j] && s[j + 1] == e.item[j + 1];
      } else {
        assert s[j + 1] == ':';
      }
    }
  }
}
