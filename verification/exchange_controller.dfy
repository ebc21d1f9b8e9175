/** `ExchangeController.getExchangeRate`
    (backend/src/controllers/exchangeController.ts): a presence check, then
    the service, whose thrown error is turned into a 404 when its message
    says "not found" and a 400 otherwise. */
module ExchangeController {
  import opened Common
  import opened Text
  import opened Validation
  import opened ApiTypes
  import ExchangeService
  import Routes

  /** What the `catch` clause can receive: an `Error`, or any other thrown value. */
  datatype Thrown = ErrorObject(message: string) | NonError

  /** `error instanceof Error ? error.message : 'Unknown error'`. */
  function ErrorMessage(t: Thrown): (m: string)
    ensures t.ErrorObject? ==> m == t.message
    ensures t.NonError? ==> m == "Unknown error"
  {
    match t
    case ErrorObject(message) => message
    case NonError => "Unknown error"
  }

  /** The status for a caught error: 404 exactly when its message contains
      "not found", 400 for everything else. */
  function ErrorResponse(t: Thrown): (resp: HttpResponse)
    ensures resp.body == ErrorBody(ErrorMessage(t))
    ensures resp.status == 404 <==> Contains(ErrorMessage(t), "not found")
    ensures resp.status == 404 || resp.status == 400
  {
    var message := ErrorMessage(t);
    var status := if Contains(message, "not found") then 404 else 400;
    HttpResponse(status, ErrorBody(message))
  }

  /** A missing parameter is answered with 400 before the service runs;
      otherwise the service's record is sent as it is, or its error is
      mapped by `ErrorResponse`. */
  function GetExchangeRate(q: Routes.Query, timestamp: string): (resp: HttpResponse)
    ensures !q.from.Truthy() || !q.to.Truthy() ==>
      resp == HttpResponse(400, ErrorBody(MissingParametersMessage))
    ensures q.from.Truthy() && q.to.Truthy() ==>
      var s := ExchangeService.GetExchangeRate(q.from, q.to, timestamp);
      && (s.Success? ==> resp == HttpResponse(200, RateBody(s.value)))
      && (s.Failure? ==> resp.body == ErrorBody(s.error)
                         && (resp.status == 404 <==> Contains(s.error, "not found")))
  {
    if !q.from.Truthy() || !q.to.Truthy() then
      HttpResponse(400, ErrorBody(MissingParametersMessage))
    else
      match ExchangeService.GetExchangeRate(q.from, q.to, timestamp)
      case Success(record) => HttpResponse(200, RateBody(record))
      case Failure(message) => ErrorResponse(ErrorObject(message))
  }

  /** No space in `s` is directly followed by 'f'. */
  predicate NoSpaceBeforeF(s: string) {
    forall i :: 0 <= i < |s| - 1 ==> !(s[i] == ' ' && s[i + 1] == 'f')
  }

  /** The property survives concatenation unless the seam creates " f". */
  lemma NoSpaceBeforeFConcat(a: string, b: string)
    requires NoSpaceBeforeF(a) && NoSpaceBeforeF(b)
    requires a == [] || b == [] || !(a[|a| - 1] == ' ' && b[0] == 'f')
    ensures NoSpaceBeforeF(a + b)
  {
    var ab := a + b;
    forall i | 0 <= i < |ab| - 1
      ensures !(ab[i] == ' ' && ab[i + 1] == 'f')
    {
      if i + 1 < |a| {
        assert ab[i] == a[i] && ab[i + 1] == a[i + 1];
      } else if i >= |a| {
        assert ab[i] == b[i - |a|] && ab[i + 1] == b[i + 1 - |a|];
      }
    }
  }

  /** A text in which a space is never followed by 'f' cannot contain
      "not found". */
  lemma NotFoundAbsent(s: string)
    requires NoSpaceBeforeF(s)
    ensures !Contains(s, "not found")
  {
    forall i | 0 <= i <= |s| - 9
      ensures !OccursAt(s, "not found", i)
    {
      var w := s[i..i + 9];
      assert w[3] == s[i + 3] && w[4] == s[i + 4];
    }
  }

  /** A text without any 'f' has no space before an 'f'. */
  lemma NoSpaceBeforeFWithoutF(s: string)
    requires 'f' !in s
    ensures NoSpaceBeforeF(s)
  {
    forall j | 0 <= j < |s|
      ensures s[j] != 'f'
    {
      assert s[j] in s;
    }
  }

  /** Each validation reason starts with 'C' and contains no 'f'. */
  lemma ReasonIsClean(e: ValidationError)
    ensures |e.Message()| > 0 && e.Message()[0] == 'C' && 'f' !in e.Message()
  {
    match e
    case NotAString => assert e.Message() == "Currency must be a string";
    case Empty => assert e.Message() == "Currency cannot be empty";
    case TooLong => assert e.Message() == "Currency code too long";
    case NotUppercaseLetters => assert e.Message() == "Currency must contain only uppercase letters";
  }

  /** The parameter-validation texts never say "not found". */
  lemma InvalidParameterMessagesLackNotFound(side: string, e: ValidationError)
    requires side == "from" || side == "to"
    ensures !Contains(InvalidParameterMessage(side, e.Message()), "not found")
  {
    var head, tail, reason := "Invalid '", "' parameter: ", e.Message();
    ReasonIsClean(e);
    NoSpaceBeforeFWithoutF(head);
    NoSpaceBeforeFWithoutF(tail);
    NoSpaceBeforeFWithoutF(reason);
    NoSpaceBeforeFConcat(head, side);
    NoSpaceBeforeFConcat(head + side, tail);
    NoSpaceBeforeFConcat(head + side + tail, reason);
    NotFoundAbsent(InvalidParameterMessage(side, reason));
  }

  /** Neither does the same-currency text. */
  lemma SameCurrencyMessageLacksNotFound()
    ensures !Contains(SameCurrencyMessage, "not found")
  {
    NotFoundAbsent(SameCurrencyMessage);
  }

  /** The missing-rate text always does, whatever the pair. */
  lemma RateNotFoundMessageSaysNotFound(pair: string)
    ensures Contains(RateNotFoundMessage(pair), "not found")
  {
    var m := RateNotFoundMessage(pair);
    assert m[14..23] == "not found";
    assert OccursAt(m, "not found", 14);
  }

  /** The controller and the live route give the same answer to every
      query: an unknown pair is a 404 in both, and invalid or same-currency
      input a 400. */
  lemma ControllerMatchesRoute(q: Routes.Query, timestamp: string)
    ensures GetExchangeRate(q, timestamp) == Routes.HandleExchangeRate(q, timestamp)
  {
    if q.from.Truthy() && q.to.Truthy() {
      Routes.RouteMatchesService(q, timestamp);
      var s := ExchangeService.GetExchangeRate(q.from, q.to, timestamp);
      if !Accepted(q.from) {
        InvalidParameterMessagesLackNotFound("from", ValidateCurrency(q.from).value);
      } else if !Accepted(q.to) {
        InvalidParameterMessagesLackNotFound("to", ValidateCurrency(q.to).value);
      } else if q.from.s == q.to.s {
        SameCurrencyMessageLacksNotFound();
      } else if s.Failure? {
        RateNotFoundMessageSaysNotFound(CurrencyRegistry.PairKey(q.from.s, q.to.s));
      }
    }
  }
}
