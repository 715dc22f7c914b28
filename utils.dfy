/**
 * `extractErrorMessage` of lib/utils.ts: the message to show for a thrown
 * value, by a priority chain of JavaScript `||` fallbacks.
 */
module Utils {
  import opened Wrappers
  import opened Js

  /** `error.response.data` of an AxiosError when it is an object; only the two
      fields the extraction reads are kept. A non-object body reads as both
      fields undefined. */
  datatype ResponseData = ResponseData(message: JsValue, error: JsValue)

  /** `error.response`; `data: None` is a nullish body. */
  datatype Response = Response(data: Option<ResponseData>)

  /** The shapes of thrown value the function tells apart, in the order of its
      `instanceof` tests (an AxiosError is also an Error, so it is tested first). */
  datatype Thrown =
    | AxiosError(response: Option<Response>)
    | PlainError(message: string)
    | NotAnError(value: JsValue)

  /** The fallback used when the caller passes none. */
  const DefaultFallback: string := "Something went wrong"

  /** A JavaScript default parameter: an omitted argument takes the default. */
  function FallbackOf(fallback: Option<string>): string {
    fallback.GetOr(DefaultFallback)
  }

  /** `error.response?.data?.message`: undefined where the chain stops. */
  function DataMessage(response: Option<Response>): JsValue {
    if response.Some? && response.value.data.Some? then response.value.data.value.message else Undefined
  }

  /** `error.response?.data?.error`: undefined where the chain stops. */
  function DataError(response: Option<Response>): JsValue {
    if response.Some? && response.value.data.Some? then response.value.data.value.error else Undefined
  }

  function ExtractErrorMessage(error: Thrown, fallback: Option<string>): (r: JsValue)
    // the default fallback is "Something went wrong"
    ensures fallback.None? && error.NotAnError? ==> r == Str("Something went wrong")
    // AxiosError: response.data.message if truthy, else response.data.error if truthy, else the fallback
    ensures error.AxiosError? ==>
      var message, err := DataMessage(error.response), DataError(error.response);
      r == (if Truthy(message) then message else if Truthy(err) then err else Str(FallbackOf(fallback)))
    // an AxiosError without a response (or without a body) yields the fallback
    ensures error.AxiosError? && (error.response.None? || error.response.value.data.None?) ==>
      r == Str(FallbackOf(fallback))
    // a plain Error yields its message when non-empty, else the fallback
    ensures error.PlainError? && error.message != "" ==> r == Str(error.message)
    ensures error.PlainError? && error.message == "" ==> r == Str(FallbackOf(fallback))
    // anything else thrown yields the fallback
    ensures error.NotAnError? ==> r == Str(FallbackOf(fallback))
  {
    var fb := FallbackOf(fallback);
    match error
    case AxiosError(response) => Or(Or(DataMessage(response), DataError(response)), Str(fb))
    case PlainError(message) => Or(Str(message), Str(fb))
    case NotAnError(_) => Str(fb)
  }

  /** Reference definition of a `||` chain: the first truthy candidate, else `last`. */
  function FirstTruthy(candidates: seq<JsValue>, last: JsValue): JsValue
  {
    if candidates == [] then last else Or(candidates[0], FirstTruthy(candidates[1..], last))
  }

  /** The values the chain tries, in priority order, before the fallback. */
  function Candidates(error: Thrown): seq<JsValue> {
    match error
    case AxiosError(response) => [DataMessage(response), DataError(response)]
    case PlainError(message) => [Str(message)]
    case NotAnError(_) => []
  }

  /** FirstTruthy picks the earliest truthy candidate, and `last` only when none is truthy. */
  lemma {:induction false} FirstTruthyIsEarliest(candidates: seq<JsValue>, last: JsValue)
    ensures var r := FirstTruthy(candidates, last);
            (r == last && forall i :: 0 <= i < |candidates| ==> !Truthy(candidates[i]))
            || (exists k :: 0 <= k < |candidates| && r == candidates[k] && Truthy(candidates[k])
                            && forall i :: 0 <= i < k ==> !Truthy(candidates[i]))
  {
    if candidates != [] {
      var tail := candidates[1..];
      FirstTruthyIsEarliest(tail, last);
      if !Truthy(candidates[0]) {
        var r := FirstTruthy(tail, last);
        if r == last && forall i :: 0 <= i < |tail| ==> !Truthy(tail[i]) {
          assert forall i :: 0 <= i < |candidates| ==> !Truthy(candidates[i]) by {
            forall i | 0 <= i < |candidates| ensures !Truthy(candidates[i]) {
              if i > 0 { assert candidates[i] == tail[i - 1]; }
            }
          }
        } else {
          var k :| 0 <= k < |tail| && r == tail[k] && Truthy(tail[k])
                   && forall i :: 0 <= i < k ==> !Truthy(tail[i]);
          assert candidates[k + 1] == tail[k];
          assert forall i :: 0 <= i < k + 1 ==> !Truthy(candidates[i]) by {
            forall i | 0 <= i < k + 1 ensures !Truthy(candidates[i]) {
              if i > 0 { assert candidates[i] == tail[i - 1]; }
            }
          }
        }
      }
    }
  }

  /** A `||` chain that ends in a truthy value always yields a truthy value. */
  lemma {:induction false} FirstTruthyOfTruthyIsTruthy(candidates: seq<JsValue>, last: JsValue)
    requires Truthy(last)
    ensures Truthy(FirstTruthy(candidates, last))
  {
    if candidates != [] {
      FirstTruthyOfTruthyIsTruthy(candidates[1..], last);
    }
  }

  /** extractErrorMessage is exactly the `||` chain over its candidates, ending in the fallback. */
  lemma ExtractIsPriorityChain(error: Thrown, fallback: Option<string>)
    ensures ExtractErrorMessage(error, fallback) == FirstTruthy(Candidates(error), Str(FallbackOf(fallback)))
  {
    var fb := Str(FallbackOf(fallback));
    match error
    case AxiosError(response) =>
      var cs := Candidates(error);
      assert cs[1..] == [DataError(response)] && cs[1..][1..] == [];
      assert FirstTruthy(cs[1..], fb) == Or(DataError(response), fb);
      assert FirstTruthy(cs, fb) == Or(DataMessage(response), Or(DataError(response), fb));
    case PlainError(message) =>
      assert Candidates(error)[1..] == [];
    case NotAnError(_) =>
  }

  /** With a non-empty fallback the result is truthy, so never the empty string. */
  lemma ResultNeverEmpty(error: Thrown, fallback: Option<string>)
    requires FallbackOf(fallback) != ""
    ensures Truthy(ExtractErrorMessage(error, fallback))
    ensures ExtractErrorMessage(error, fallback) != Str("")
  {
    ExtractIsPriorityChain(error, fallback);
    FirstTruthyOfTruthyIsTruthy(Candidates(error), Str(FallbackOf(fallback)));
  }

  /** With the default fallback the result is never empty. */
  lemma DefaultResultNeverEmpty(error: Thrown)
    ensures ExtractErrorMessage(error, None) != Str("")
  {
  }
}
