/**
 * The two logging formatters: `CounterLogFormatter`, which numbers every
 * line it formats, and `CustomizedJSONFormatter.json_record`, which fills
 * the `extra` dict of a record in place. The clock is a parameter: the
 * record's creation time and "now" arrive already in ISO format.
 */
module LogFormatters {
  import opened JsonData
  import Text

  /** The parts of a `logging.LogRecord` the formatters read. */
  datatype LogRecord = LogRecord(
    levelname: string,
    name: string,
    funcName: string,
    createdIso: string,
    message: string)

  /** `f"Log #{counter} - {levelname} - {timestamp} - {message}\n"`. */
  function Line(counter: nat, r: LogRecord): (s: string)
    ensures |s| >= 14 && s[..5] == "Log #" && s[|s| - 1] == '\n'
  {
    "Log #" + Text.NatToString(counter) + " - " + r.levelname + " - " + r.createdIso + " - " + r.message + "\n"
  }

  /**
   * Lines formatted under different counter values differ, whatever the
   * records: the number is read off between "Log #" and the first space.
   */
  lemma LinesDifferByCounter(n: nat, m: nat, a: LogRecord, b: LogRecord)
    requires n != m
    ensures Line(n, a) != Line(m, b)
  {
    var sn, sm := Text.NatToString(n), Text.NatToString(m);
    var la, lb := Line(n, a), Line(m, b);
    Text.NatToStringDigits(n);
    Text.NatToStringDigits(m);
    assert la[5..5 + |sn|] == sn && la[5 + |sn|] == ' ';
    assert lb[5..5 + |sm|] == sm && lb[5 + |sm|] == ' ';
    if |sn| == |sm| {
      if la == lb {
        Text.NatToStringInjective(n, m);
      }
    } else if |sn| < |sm| {
      assert lb[5 + |sn|] == sm[|sn|];
    } else {
      assert la[5 + |sm|] == sn[|sm|];
    }
  }

  class CounterLogFormatter {
    var counter: nat

    constructor()
      ensures counter == 0
    {
      counter := 0;
    }

    /** `format`: the counter goes up by exactly one and numbers the line. */
    method Format(r: LogRecord) returns (s: string)
      modifies this
      ensures counter == old(counter) + 1
      ensures s == Line(counter, r)
    {
      counter := counter + 1;
      s := Line(counter, r);
    }
  }

  /** Two lines from one formatter never carry the same number, so they differ. */
  method FormatTwice(f: CounterLogFormatter, a: LogRecord, b: LogRecord) returns (first: string, second: string)
    modifies f
    ensures f.counter == old(f.counter) + 2
    ensures first != second
  {
    first := f.Format(a);
    second := f.Format(b);
    LinesDifferByCounter(f.counter - 1, f.counter, a, b);
  }

  /** The keys `json_record` always writes. */
  const RecordKeys: set<string> := {"level", "msg", "logger", "func", "time"}

  /** `extra.pop("request", None)`: the value under "request", None when absent. */
  function RequestOf(extra: map<string, Json>): Json
  {
    if "request" in extra then extra["request"] else JNull
  }

  /**
   * What `json_record` leaves in `extra`: the five record fields, no
   * "request", "x_forward_for" (the request's X-FORWARD-FOR header, as
   * `forwardedFor` reads it) exactly when the popped request is truthy,
   * and every other key as it was.
   */
  function JsonRecordOf(message: string, extra: map<string, Json>, r: LogRecord, now: string,
                        forwardedFor: Json -> Json): (out: map<string, Json>)
    ensures out.Keys == (extra.Keys - {"request"}) + RecordKeys
      + (if Truthy(RequestOf(extra)) then {"x_forward_for"} else {})
    ensures out["level"] == JStr(r.levelname) && out["msg"] == JStr(message) && out["logger"] == JStr(r.name)
      && out["func"] == JStr(r.funcName) && out["time"] == JStr(now)
    ensures Truthy(RequestOf(extra)) ==> out["x_forward_for"] == forwardedFor(RequestOf(extra))
    ensures forall k :: k in extra && k !in RecordKeys && k != "request" && k != "x_forward_for" ==> out[k] == extra[k]
    ensures !Truthy(RequestOf(extra)) && "x_forward_for" in extra ==> out["x_forward_for"] == extra["x_forward_for"]
  {
    var filled := extra["level" := JStr(r.levelname)]["msg" := JStr(message)]["logger" := JStr(r.name)]
      ["func" := JStr(r.funcName)]["time" := JStr(now)];
    var request := RequestOf(extra);
    var popped := filled - {"request"};
    if Truthy(request) then popped["x_forward_for" := forwardedFor(request)] else popped
  }

  /** The `extra` dict, which `json_record` updates in place and returns. */
  class Extra {
    var fields: map<string, Json>

    constructor(fields: map<string, Json>)
      ensures this.fields == fields
    {
      this.fields := fields;
    }
  }

  /** `CustomizedJSONFormatter.json_record`, step by step on the caller's dict. */
  method JsonRecord(message: string, extra: Extra, r: LogRecord, now: string, forwardedFor: Json -> Json)
    returns (out: Extra)
    modifies extra
    ensures out == extra
    ensures extra.fields == JsonRecordOf(message, old(extra.fields), r, now, forwardedFor)
  {
    extra.fields := extra.fields["level" := JStr(r.levelname)];
    extra.fields := extra.fields["msg" := JStr(message)];
    extra.fields := extra.fields["logger" := JStr(r.name)];
    extra.fields := extra.fields["func" := JStr(r.funcName)];
    extra.fields := extra.fields["time" := JStr(now)];
    var request := JNull;
    if "request" in extra.fields {
      request := extra.fields["request"];
      extra.fields := extra.fields - {"request"};
    }
    if Truthy(request) {
      extra.fields := extra.fields["x_forward_for" := forwardedFor(request)];
    }
    return extra;
  }

  /** Formatting the same record twice gives the same dict: the second pass finds no request. */
  lemma JsonRecordIdempotent(message: string, extra: map<string, Json>, r: LogRecord, now: string,
                             forwardedFor: Json -> Json)
    ensures var once := JsonRecordOf(message, extra, r, now, forwardedFor);
      JsonRecordOf(message, once, r, now, forwardedFor) == once
  {
  }
}
