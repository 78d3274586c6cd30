/**
 The values the provider works with: Pods, claims, the state file and the
 in-memory tables that `mu` guards. A zero `metav1.Time` and a nil reference are
 `None`; times are whole seconds, as the state file serialises them.
 */
module Types {

  datatype Option<+T> = None | Some(value: T)

  type Uid = string
  type Time = int

  datatype SandboxId = SandboxId(text: string)

  /** The release credential of one sandbox. */
  datatype Token = Token(text: string)

  /** The key of a Pod; its text form is also the claim reference the node keeps. */
  datatype Key = Key(namespace: string, name: string) {
    function Text(): (text: string)
      ensures text != ""
    {
      namespace + "/" + name
    }
  }

  /** A controller reference. `resolvable` says whether a resource can be derived from its apiVersion and kind. */
  datatype OwnerRef = OwnerRef(name: string, uid: Uid, resolvable: bool)

  /** The ttl-seconds annotation: absent, not an integer, or an integer. */
  datatype Ttl = DefaultTtl | MalformedTtl | Seconds(n: int)

  /** The annotations a create reads; an absent annotation is the empty string. */
  datatype Request = Request(runtime: string, template: string, ttl: Ttl) {
    predicate RightRuntime() {
      runtime == "" || runtime == "sandboxd"
    }

    predicate Valid() {
      template != "" && !ttl.MalformedTtl? && (ttl.Seconds? ==> ttl.n >= 0)
    }
  }

  datatype Pod = Pod(uid: Uid, controller: Option<OwnerRef>, request: Request, claimId: Option<SandboxId>) {
    /** The controller's UID, or the Pod's own for a bare Pod. */
    function Authority(): Uid {
      if controller.Some? then controller.value.uid else uid
    }

    function WithClaim(id: SandboxId): Pod {
      this.(claimId := Some(id))
    }
  }

  datatype Claim = Claim(
    id: SandboxId,
    token: Token,
    address: string,
    podUid: Uid,
    authority: Option<Uid>,
    claimedAt: Option<Time>,
    deadline: Option<Time>,
    owner: Option<OwnerRef>
  ) {
    predicate Expired(now: Time) {
      deadline.Some? && deadline.value <= now
    }

    /** The UID an adopting Pod must answer to: the preserve-time owner if recorded, else the authority. */
    function Wanted(): Option<Uid> {
      if owner.Some? then Some(owner.value.uid) else authority
    }

    predicate AdoptableBy(pod: Pod) {
      var want := Wanted();
      want.None? || podUid == pod.uid || want.value == pod.Authority()
    }

    function BoundTo(pod: Pod): Claim {
      this.(podUid := pod.uid, authority := Some(pod.Authority()), owner := None)
    }
  }

  /** What the node answers to a claim it grants. */
  datatype Grant = Grant(id: SandboxId, token: Token, address: string, deadline: Option<Time>)

  /** When a preserved key's owner is due again, and the delay that led there. */
  datatype OwnerRecheck = OwnerRecheck(at: Time, delay: int)

  /** What one listing of the node says: each listed sandbox with the end of its lease. */
  type Listing = map<SandboxId, Option<Time>>

  datatype StateFile = StateFile(claims: map<Key, Claim>, releasing: seq<Claim>)

  /** The tables `mu` guards. */
  datatype Mem = Mem(
    pods: map<Key, Pod>,
    claims: map<Key, Claim>,
    tentative: set<Key>,
    quarantined: set<Key>,
    releasing: seq<Claim>
  ) {
    /** Neither tentative nor quarantined. */
    predicate Settled(key: Key) {
      key !in tentative && key !in quarantined
    }

    /** The row at `key` is there and is for sandbox `id`. */
    predicate Row(key: Key, id: SandboxId) {
      key in claims && claims[key].id == id
    }
  }

  const NoMem := Mem(map[], map[], {}, {}, [])

  function TableIds(claims: map<Key, Claim>): set<SandboxId> {
    set k | k in claims :: claims[k].id
  }

  function QueueIds(queue: seq<Claim>): set<SandboxId> {
    set c | c in queue :: c.id
  }

  function Ids(claims: map<Key, Claim>, queue: seq<Claim>): set<SandboxId> {
    TableIds(claims) + QueueIds(queue)
  }
}
