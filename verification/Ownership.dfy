/**
 The destroy verdict on a controller owner. The read of the owner object is an
 input; everything the verdict looks at is in `OwnerRead`.
 */
module Ownership {
  import opened Types

  datatype Verdict = Preserve | Release

  /** One entry of `status.conditions`; an entry that is not an object is `Malformed`. */
  datatype Condition = Malformed | Condition(kind: string, reason: string)

  datatype OwnerRead =
    | NoClient                                   // no dynamic client is configured
    | QueryFailed                                // any error but a 404
    | NotFound(detailsName: Option<string>)      // a 404, with the name its details carry
    | Found(uid: Uid, deleting: bool, conditions: seq<Condition>)

  const READY := "Ready"
  const EXPIRED := "SandboxExpired"

  /** The name a NotFound carries; empty when it carries none. */
  function NotFoundName(detailsName: Option<string>): string {
    if detailsName.Some? then detailsName.value else ""
  }

  /** Some Ready condition says expired, and no Ready condition stands before it. */
  ghost predicate FirstReadyExpired(conditions: seq<Condition>) {
    exists i ::
      && 0 <= i < |conditions|
      && conditions[i] == Condition("Ready", "SandboxExpired")
      && forall j :: 0 <= j < i ==> !(conditions[j].Condition? && conditions[j].kind == "Ready")
  }

  function OwnerExpired(conditions: seq<Condition>): (expired: bool)
    ensures expired <==> FirstReadyExpired(conditions)
  {
    if conditions == [] then
      false
    else if conditions[0].Condition? && conditions[0].kind == READY then
      FirstReady(conditions);
      conditions[0].reason == EXPIRED
    else
      var expired := OwnerExpired(conditions[1..]);
      LaterReady(conditions);
      expired
  }

  lemma FirstReady(conditions: seq<Condition>)
    requires conditions != [] && conditions[0].Condition? && conditions[0].kind == READY
    ensures FirstReadyExpired(conditions) <==> conditions[0].reason == EXPIRED
  {
    if conditions[0].reason == EXPIRED {
      assert conditions[0] == Condition(READY, EXPIRED);
    }
  }

  lemma LaterReady(conditions: seq<Condition>)
    requires conditions != [] && !(conditions[0].Condition? && conditions[0].kind == READY)
    ensures FirstReadyExpired(conditions) <==> FirstReadyExpired(conditions[1..])
  {
    var rest := conditions[1..];
    if FirstReadyExpired(conditions) {
      var i :| 0 <= i < |conditions| && conditions[i] == Condition(READY, EXPIRED)
        && forall j :: 0 <= j < i ==> !(conditions[j].Condition? && conditions[j].kind == READY);
      assert rest[i - 1] == Condition(READY, EXPIRED);
    }
    if FirstReadyExpired(rest) {
      var i :| 0 <= i < |rest| && rest[i] == Condition(READY, EXPIRED)
        && forall j :: 0 <= j < i ==> !(rest[j].Condition? && rest[j].kind == READY);
      assert conditions[i + 1] == Condition(READY, EXPIRED);
      forall j | 0 <= j < i + 1
        ensures !(conditions[j].Condition? && conditions[j].kind == READY)
      {
        if j > 0 { assert conditions[j] == rest[j - 1]; }
      }
    }
  }

  /** The scan of the conditions as the code runs it: the first Ready condition decides. */
  method ScanConditions(conditions: seq<Condition>) returns (expired: bool)
    ensures expired <==> FirstReadyExpired(conditions)
  {
    for i := 0 to |conditions|
      invariant forall j :: 0 <= j < i ==> !(conditions[j].Condition? && conditions[j].kind == READY)
    {
      if conditions[i].Condition? && conditions[i].kind == READY {
        expired := conditions[i].reason == EXPIRED;
        if expired {
          assert conditions[i] == Condition(READY, EXPIRED);
        }
        return;
      }
    }
    return false;
  }

  function DestroyAuthorized(ref: Option<OwnerRef>, read: OwnerRead): Verdict {
    if ref.None? then Release
    else if read.NoClient? then Preserve
    else if !ref.value.resolvable then Preserve
    else if read.QueryFailed? then Preserve
    else if read.NotFound? then
      if NotFoundName(read.detailsName) == ref.value.name then Release else Preserve
    else if read.deleting then Release
    else if OwnerExpired(read.conditions) then Release
    else if ref.value.uid != "" && read.uid != ref.value.uid then Release
    else Preserve
  }

  /** The owner generation `ref` names is alive and wants its workload: what every object read must refute. */
  ghost predicate OwnerAlive(ref: OwnerRef, read: OwnerRead) {
    read.Found? && !read.deleting && !FirstReadyExpired(read.conditions) && (ref.uid == "" || read.uid == ref.uid)
  }

  /** The owner's resource is known, and it was read and is not alive, or is missing under its own name. */
  ghost predicate OwnerRefuted(ref: OwnerRef, read: OwnerRead) {
    && ref.resolvable
    && ((read.Found? && !OwnerAlive(ref, read)) ||
        (read.NotFound? && NotFoundName(read.detailsName) == ref.name))
  }

  /** The decision table of the delete contract: a bare Pod, or an owner that was read and refuted. */
  lemma ReleaseIffOwnerRefuted(ref: Option<OwnerRef>, read: OwnerRead)
    ensures DestroyAuthorized(ref, read).Release? <==> ref.None? || OwnerRefuted(ref.value, read)
  {
    if ref.Some? && read.Found? {
      assert OwnerExpired(read.conditions) <==> FirstReadyExpired(read.conditions);
    }
  }

  /** Failed queries, a missing client and an underivable resource never authorize a release. */
  lemma UnverifiableOwnerPreserves(ref: OwnerRef, read: OwnerRead)
    requires read.QueryFailed? || read.NoClient? || !ref.resolvable
    ensures DestroyAuthorized(Some(ref), read) == Preserve
  {
  }

  /** A client refuses to ask for an object without a name, so no answer to such a question is a 404. */
  ghost predicate Answerable(ref: OwnerRef, read: OwnerRead) {
    read.NotFound? ==> ref.name != ""
  }

  /** A 404 that names nothing is an endpoint that could not be verified, not a deleted owner: it always preserves. */
  lemma Unnamed404Preserves(ref: OwnerRef, read: OwnerRead)
    requires Answerable(ref, read) && read.NotFound? && NotFoundName(read.detailsName) == ""
    ensures DestroyAuthorized(Some(ref), read) == Preserve
  {
  }

  /**
   Without that rule of the client it would preserve exactly for owners that have a
   name, or whose resource is never queried.
   */
  lemma Unnamed404PreservesIffOwnerNamed(ref: OwnerRef)
    ensures DestroyAuthorized(Some(ref), NotFound(None)) == Preserve <==> ref.name != "" || !ref.resolvable
  {
    var name := NotFoundName(None);
  }
}
