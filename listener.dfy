/** The consume-until-decisive rule shared by the Connect and
    ImageInference listeners: walk the inbound messages in order, pass over
    the ones that do not concern this call, and stop at the first one that
    either answers it or reports an error. */
module Listener {
  import opened Wrappers
  import opened Errors

  /** What a listener decides about one inbound message. */
  datatype Verdict<+R> = Skip | Deliver(value: R) | Reject(error: SdkError)

  /** How a listener's loop ends: the message at index `at` answered the
      call or failed it, or the stream closed with no decisive message. */
  datatype Exit<+R> =
    | Delivered(value: R, at: nat)
    | Rejected(error: SdkError, at: nat)
    | Exhausted

  /** Which ready case the caller's `select` takes once the request is sent:
      the listener's channels, `time.After`, or `ctx.Done()`. */
  datatype Ready = ListenerDone | TimerFired | ContextCancelled(reason: string)

  /** What the collaborators of one call do: the fresh request id, whether
      encoding the frame fails, whether sending it fails, and which case
      of the final select fires. */
  datatype CallEnv = CallEnv(
    requestId: string,
    encodeError: Option<SdkError>,
    sendError: Option<SdkError>,
    ready: Ready)

  /** `e` with its message index moved `n` places later. */
  function Shift<R>(e: Exit<R>, n: nat): Exit<R>
  {
    match e
    case Delivered(v, k) => Delivered(v, k + n)
    case Rejected(err, k) => Rejected(err, k + n)
    case Exhausted => Exhausted
  }

  /** The exit of a listener that sees messages whose verdicts are `vs`:
      the first non-Skip verdict decides, and the stream closing with only
      Skips in it yields Exhausted. */
  function FirstDecisive<R>(vs: seq<Verdict<R>>): (e: Exit<R>)
    ensures e.Exhausted? <==> forall i :: 0 <= i < |vs| ==> vs[i].Skip?
    ensures e.Delivered? ==> e.at < |vs| && vs[e.at] == Deliver(e.value)
    ensures e.Rejected? ==> e.at < |vs| && vs[e.at] == Reject(e.error)
    ensures !e.Exhausted? ==> forall j :: 0 <= j < e.at ==> vs[j].Skip?
  {
    if vs == [] then Exhausted
    else match vs[0]
      case Skip => Shift(FirstDecisive(vs[1..]), 1)
      case Deliver(v) => Delivered(v, 0)
      case Reject(err) => Rejected(err, 0)
  }

  /** The exit a listener reports at index `i`, given the verdict there. */
  function ExitAt<R>(v: Verdict<R>, i: nat): Exit<R>
  {
    match v
    case Skip => Exhausted
    case Deliver(x) => Delivered(x, i)
    case Reject(err) => Rejected(err, i)
  }

  /** A decisive verdict preceded only by Skips is the one that decides. */
  lemma DecidedAt<R>(vs: seq<Verdict<R>>, i: nat)
    requires i < |vs| && !vs[i].Skip?
    requires forall j :: 0 <= j < i ==> vs[j].Skip?
    ensures FirstDecisive(vs) == ExitAt(vs[i], i)
  {
  }

  /** Messages after the decisive one are never looked at: appending more
      messages to the stream does not change a decided exit. */
  lemma LaterMessagesIgnored<R>(vs: seq<Verdict<R>>, ws: seq<Verdict<R>>)
    requires !FirstDecisive(vs).Exhausted?
    ensures FirstDecisive(vs + ws) == FirstDecisive(vs)
  {
    var i := FirstDecisive(vs).at;
    DecidedAt(vs + ws, i);
  }

  /** Skipped messages only delay the decision: a prefix of Skips moves the
      deciding index by its length and changes nothing else. */
  lemma SkippedPrefixOnlyDelays<R>(ps: seq<Verdict<R>>, ws: seq<Verdict<R>>)
    requires forall i :: 0 <= i < |ps| ==> ps[i].Skip?
    ensures FirstDecisive(ps + ws) == Shift(FirstDecisive(ws), |ps|)
  {
    var e := FirstDecisive(ws);
    if e.Exhausted? {
      assert forall i :: 0 <= i < |ps + ws| ==> (ps + ws)[i].Skip? by {
        forall i | 0 <= i < |ps + ws| ensures (ps + ws)[i].Skip? {
          if i >= |ps| { assert (ps + ws)[i] == ws[i - |ps|]; }
        }
      }
    } else {
      DecidedAt(ps + ws, |ps| + e.at);
    }
  }
}
