/**
 * What the submit workflow makes observable: the loading screen, the call
 * to the enrollment service, and how the service's outcome turns into
 * dismissing the loading screen and pushing the result screen. Effects are
 * recorded in order; `R` is the service's typed enrollment result.
 */
module Submission {
  import opened Wrappers
  import opened EnrollmentModel

  /** The success payload, inspected first as a typed result and then as a string. */
  datatype Payload<R> = Typed(result: R) | Text(message: string) | OtherData

  /** The enrollment service's result cases. */
  datatype Outcome<R> =
    | Success(data: Payload<R>)
    | RequestErr
    | PathErr
    | ServerErr
    | NetworkFail

  /** An observable side effect of the screen, in the order it happens. */
  datatype Effect<I, R> =
    | PresentLoading(dogName: Option<string>)
    | CallService(request: Request<I>)
    | DismissLoading
    | PushResult(result: R)
    | Log(message: string)

  predicate IsTypedSuccess<R>(o: Outcome<R>) {
    o.Success? && o.data.Typed?
  }

  predicate IsFailMarker<R>(o: Outcome<R>) {
    o.Success? && o.data.Text? && o.data.message == "fail"
  }

  ghost predicate Dismisses<I, R>(es: seq<Effect<I, R>>) {
    exists k :: 0 <= k < |es| && es[k].DismissLoading?
  }

  ghost predicate Pushes<I, R>(es: seq<Effect<I, R>>) {
    exists k :: 0 <= k < |es| && es[k].PushResult?
  }

  /**
   * The effects of the service's callback. A typed success runs the
   * completion, which dismisses the loading screen and then pushes the
   * result; the "fail" marker only dismisses; any other payload does
   * nothing; the four error cases only log.
   */
  function Reactions<I, R>(o: Outcome<R>): (es: seq<Effect<I, R>>)
    ensures IsTypedSuccess(o) ==> es == [DismissLoading, PushResult(o.data.result)]
    ensures IsFailMarker(o) ==> es == [DismissLoading]
    ensures Dismisses(es) <==> IsTypedSuccess(o) || IsFailMarker(o)
    ensures Pushes(es) <==> IsTypedSuccess(o)
    ensures forall k :: 0 <= k < |es| ==> !es[k].PresentLoading? && !es[k].CallService?
    ensures o.Success? && !IsTypedSuccess(o) && !IsFailMarker(o) ==> es == []
    ensures o == RequestErr ==> es == [Log("requestErr")]
    ensures o == PathErr ==> es == [Log("pathErr")]
    ensures o == ServerErr ==> es == [Log("serverErr")]
    ensures o == NetworkFail ==> es == [Log("networkFail")]
  {
    match o
    case Success(Typed(r)) =>
      var es: seq<Effect<I, R>> := [DismissLoading, PushResult(r)];
      assert es[0].DismissLoading? && es[1].PushResult?;
      es
    case Success(Text(m)) =>
      if m == "fail" then
        var es: seq<Effect<I, R>> := [DismissLoading];
        assert es[0].DismissLoading?;
        es
      else []
    case Success(OtherData) => []
    case RequestErr => [Log("requestErr")]
    case PathErr => [Log("pathErr")]
    case ServerErr => [Log("serverErr")]
    case NetworkFail => [Log("networkFail")]
  }

  /**
   * The effects of posting `e`: nothing when any of the thirteen required
   * values is missing, otherwise the service call followed by the callback's
   * effects.
   */
  function PostEffects<I, R>(e: Option<Enrollment<I>>, o: Outcome<R>): (es: seq<Effect<I, R>>)
    ensures !Complete(e) ==> es == []
    ensures Complete(e) ==> es == [CallService(RequestOf(e).value)] + Reactions(o)
  {
    match RequestOf(e)
    case None => []
    case Some(req) => [CallService(req)] + Reactions(o)
  }

  /**
   * The effects of a submit that passed the owner guard, with `e` the rebuilt
   * enrollment: the loading screen, shown with the dog's name, always comes
   * first and only once; the service is called at most once, right after it,
   * and only when all thirteen values are present; the result screen is
   * pushed only for a typed success and then it is the last effect, right
   * after the loading screen is dismissed.
   */
  function SubmitEffects<I, R>(e: Enrollment<I>, o: Outcome<R>): (es: seq<Effect<I, R>>)
    ensures |es| >= 1 && es[0] == PresentLoading(DogNameOf(Some(e)))
    ensures forall k :: 0 < k < |es| ==> !es[k].PresentLoading?
    ensures forall k :: 0 <= k < |es| && es[k].CallService? ==>
              k == 1 && Complete(Some(e)) && es[k].request == RequestOf(Some(e)).value
    ensures (exists k :: 0 <= k < |es| && es[k].CallService?) <==> Complete(Some(e))
    ensures !Complete(Some(e)) ==> |es| == 1
    ensures forall k :: 0 <= k < |es| && es[k].PushResult? ==>
              k == |es| - 1 && es[k - 1].DismissLoading? && o == Success(Typed(es[k].result))
    ensures Complete(Some(e)) && IsTypedSuccess(o) ==>
              es[1..] == [CallService(RequestOf(Some(e)).value), DismissLoading, PushResult(o.data.result)]
    ensures Complete(Some(e)) && IsFailMarker(o) ==>
              es[1..] == [CallService(RequestOf(Some(e)).value), DismissLoading]
    ensures !IsTypedSuccess(o) && !IsFailMarker(o) ==> !Dismisses(es) && !Pushes(es)
  {
    var es := [PresentLoading(DogNameOf(Some(e)))] + PostEffects(Some(e), o);
    assert Complete(Some(e)) ==> es[1].CallService?;
    es
  }
}
