/**
 * `APIResponse`: the envelope every endpoint answers with. Constructing it
 * returns a response, built by `success` or `fail` from the arguments and
 * the name of the calling function.
 */
module ApiResponse {
  import opened Wrappers
  import opened JsonData
  import Text

  /** No key occurs twice, as in a dict. */
  predicate DistinctKeys(fields: seq<(string, Json)>)
  {
    forall i, j :: 0 <= i < j < |fields| ==> fields[i].0 != fields[j].0
  }

  /** The items of a dict, in insertion order. */
  type ErrorFields = fields: seq<(string, Json)> | DistinctKeys(fields)

  /**
   * The `message` argument: a string, or a DRF error dict whose values are
   * lists of messages, its keys in insertion order.
   */
  datatype Message =
    | Plain(text: string)
    | ErrorDict(fields: ErrorFields)

  /** Python's truthiness of the message. */
  predicate MessageTruthy(m: Message)
  {
    match m
    case Plain(t) => t != ""
    case ErrorDict(fields) => fields != []
  }

  /** The dict built from the error fields. */
  function FieldsObject(fields: seq<(string, Json)>): map<string, Json>
  {
    if fields == [] then map[]
    else FieldsObject(fields[..|fields| - 1])[fields[|fields| - 1].0 := fields[|fields| - 1].1]
  }

  /** Every field of the error dict appears in the built dict with its own value. */
  lemma {:induction false} FieldsObjectHasField(fields: ErrorFields, i: nat)
    requires i < |fields|
    ensures fields[i].0 in FieldsObject(fields) && FieldsObject(fields)[fields[i].0] == fields[i].1
    decreases |fields|
  {
    if i < |fields| - 1 {
      var prefix := fields[..|fields| - 1];
      assert DistinctKeys(prefix) by {
        forall k, l | 0 <= k < l < |prefix| ensures prefix[k].0 != prefix[l].0 {
          assert prefix[k] == fields[k] && prefix[l] == fields[l];
        }
      }
      FieldsObjectHasField(prefix, i);
      assert prefix[i] == fields[i];
    }
  }

  /** The message as it appears in the response body. */
  function MessageJson(m: Message): Json
  {
    match m
    case Plain(t) => JStr(t)
    case ErrorDict(fields) => JObj(FieldsObject(fields))
  }

  /** The arguments of `APIResponse(...)`, with the caller's function name. */
  datatype Arguments = Arguments(
    errors: Json,
    statusCode: Option<int>,
    data: Json,
    message: Message,
    forError: bool,
    generalError: bool,
    callerFunction: string)

  /** A DRF `Response`: its body and its status (None leaves Django's default). */
  datatype Response = Response(body: map<string, Json>, status: Option<int>)

  const HttpOk: int := 200

  /**
   * `struct_response`: always "success", "message" and "data"; "errors"
   * only when the errors are truthy.
   */
  function StructResponse(data: Json, success: bool, message: Json, errors: Json): (r: map<string, Json>)
    ensures r.Keys == {"success", "message", "data"} + (if Truthy(errors) then {"errors"} else {})
    ensures r["success"] == JBool(success) && r["message"] == message && r["data"] == data
    ensures Truthy(errors) ==> r["errors"] == errors
  {
    var response := map["success" := JBool(success), "message" := message, "data" := data];
    if Truthy(errors) then response["errors" := errors] else response
  }

  /** `success_message`: the caller's name with "_" made "-", title-cased, then " Successful.". */
  function SuccessMessage(callerFunction: string): (s: string)
    ensures |s| == |callerFunction| + 12
    ensures s[|callerFunction|..] == " Successful."
  {
    Text.Title(Text.ReplaceChar(callerFunction, '_', '-')) + " Successful."
  }

  /**
   * The generated message has no underscore left in the name part: each
   * underscore became a hyphen, each letter that starts a word is upper
   * case, and every other letter is lower case.
   */
  lemma SuccessMessageWords(callerFunction: string, i: nat)
    requires i < |callerFunction|
    ensures SuccessMessage(callerFunction)[i] != '_'
    ensures callerFunction[i] == '_' ==> SuccessMessage(callerFunction)[i] == '-'
    ensures Text.IsCased(callerFunction[i]) && (i == 0 || !Text.IsCased(callerFunction[i - 1])) ==>
      Text.IsUpper(SuccessMessage(callerFunction)[i])
    ensures Text.IsCased(callerFunction[i]) && i > 0 && Text.IsCased(callerFunction[i - 1]) ==>
      Text.IsLower(SuccessMessage(callerFunction)[i])
  {
    var replaced := Text.ReplaceChar(callerFunction, '_', '-');
    Text.TitleFromAt(replaced, false, i);
    if i > 0 {
      assert replaced[i - 1] == (if callerFunction[i - 1] == '_' then '-' else callerFunction[i - 1]);
    }
    assert SuccessMessage(callerFunction)[i] == Text.Title(replaced)[i];
  }

  /**
   * `success`: the given message, or the generated one when it is falsy;
   * the given status, or 200 when it is None or 0; no "errors" key.
   */
  function Success(a: Arguments): (r: Response)
    ensures r.body.Keys == {"success", "message", "data"}
    ensures r.body["success"] == JBool(true) && r.body["data"] == a.data
    ensures MessageTruthy(a.message) ==> r.body["message"] == MessageJson(a.message)
    ensures !MessageTruthy(a.message) ==> r.body["message"] == JStr(SuccessMessage(a.callerFunction))
    ensures r.status == Some(if a.statusCode.Some? && a.statusCode.value != 0 then a.statusCode.value else HttpOk)
  {
    var message := if MessageTruthy(a.message) then MessageJson(a.message) else JStr(SuccessMessage(a.callerFunction));
    var status := if a.statusCode.Some? && a.statusCode.value != 0 then a.statusCode.value else HttpOk;
    Response(StructResponse(a.data, true, message, JNull), Some(status))
  }

  /** What Python raises while picking the first error of a dict message. */
  datatype MessageError = StopIteration | IndexError | KeyError | TypeError

  /**
   * `self.message[next(iter(self.message))][0]` for a dict, the message
   * itself otherwise: the first element of the first field's list (the
   * first character of a string value; a dict value has no key 0).
   */
  function ErrorMessage(m: Message): (r: Result<Json, MessageError>)
    ensures m.Plain? ==> r == Ok(JStr(m.text))
    ensures m.ErrorDict? && m.fields == [] ==> r == Err(StopIteration)
    ensures m.ErrorDict? && m.fields != [] && m.fields[0].1.JList? && m.fields[0].1.items != [] ==>
      r == Ok(m.fields[0].1.items[0])
    ensures m.ErrorDict? && m.fields != [] && m.fields[0].1.JStr? ==>
      r == (if m.fields[0].1.s == "" then Err(IndexError) else Ok(JStr([m.fields[0].1.s[0]])))
    ensures m.ErrorDict? && m.fields != [] && m.fields[0].1 == JList([]) ==> r == Err(IndexError)
    ensures m.ErrorDict? && m.fields != [] && m.fields[0].1.JObj? ==> r == Err(KeyError)
    ensures m.ErrorDict? && m.fields != [] && (m.fields[0].1.JNull? || m.fields[0].1.JBool? || m.fields[0].1.JInt?) ==>
      r == Err(TypeError)
  {
    match m
    case Plain(t) => Ok(JStr(t))
    case ErrorDict(fields) =>
      if fields == [] then Err(StopIteration)
      else match fields[0].1
        case JList(items) => if items == [] then Err(IndexError) else Ok(items[0])
        case JStr(s) => if s == "" then Err(IndexError) else Ok(JStr([s[0]]))
        case JObj(_) => Err(KeyError)
        case _ => Err(TypeError)
  }

  /** The error message of a dict is the first item of the first field's list as it appears in the response body. */
  lemma ErrorMessageFromBody(fields: ErrorFields)
    requires fields != [] && fields[0].1.JList? && fields[0].1.items != []
    ensures var body := MessageJson(ErrorDict(fields));
      fields[0].0 in body.fields && body.fields[fields[0].0].JList? && body.fields[fields[0].0].items != []
      && ErrorMessage(ErrorDict(fields)) == Ok(body.fields[fields[0].0].items[0])
  {
    FieldsObjectHasField(fields, 0);
  }

  /**
   * `fail`: data is {} and success False, the errors attached when truthy,
   * the status passed through. The message is the first error of a dict
   * message, replaced by `generalErrorMessage` for a general error; the
   * dict is read first, so a malformed one raises even then.
   */
  function Fail(a: Arguments, generalErrorMessage: string): (r: Result<Response, MessageError>)
    ensures r.Err? <==> ErrorMessage(a.message).Err?
    ensures r.Ok? ==>
      r.value.body.Keys == {"success", "message", "data"} + (if Truthy(a.errors) then {"errors"} else {})
    ensures r.Ok? ==>
      r.value.body["success"] == JBool(false) && r.value.body["data"] == JObj(map[]) && r.value.status == a.statusCode
    ensures r.Ok? ==>
      r.value.body["message"] == (if a.generalError then JStr(generalErrorMessage) else ErrorMessage(a.message).value)
  {
    match ErrorMessage(a.message)
    case Err(e) => Err(e)
    case Ok(first) =>
      var message := if a.generalError then JStr(generalErrorMessage) else first;
      Ok(Response(StructResponse(JObj(map[]), false, message, a.errors), a.statusCode))
  }

  /** `response_builder_callback`, which is what `APIResponse(...)` returns. */
  function Build(a: Arguments, generalErrorMessage: string): (r: Result<Response, MessageError>)
    ensures a.forError ==> r == Fail(a, generalErrorMessage)
    ensures !a.forError ==> r == Ok(Success(a))
  {
    if a.forError then Fail(a, generalErrorMessage) else Ok(Success(a))
  }

  /** The two outcomes are told apart by the body's "success" flag alone. */
  lemma SuccessFlagIsDispatch(a: Arguments, generalErrorMessage: string)
    requires Build(a, generalErrorMessage).Ok?
    ensures Build(a, generalErrorMessage).value.body["success"] == JBool(!a.forError)
    ensures !a.forError ==> "errors" !in Build(a, generalErrorMessage).value.body
  {
  }
}
