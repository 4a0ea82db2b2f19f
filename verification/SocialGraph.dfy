/**
 Friend requests, friendships and moderation controls. Each route is one atomic step on the
 tables; a refused route changes nothing.

 The tables compare account ids by value and give them out in lower case. A caller may write the id
 of a target in either case, and the routes order a pair by the text as it was sent.
 */
module SocialGraph {
  import opened Wrappers

  /** An id as it was sent: hexadecimal digits of either case. */
  type Text = string

  /** An id as the tables hold it and as credentials carry it, in lower case. */
  type Account = string

  function LowerCase(c: char): char { if 'A' <= c <= 'F' then c - 'A' + 'a' else c }

  /** The account a text names. */
  function Canonical(text: Text): (account: Account)
    ensures |account| == |text|
  {
    seq(|text|, i requires 0 <= i < |text| => LowerCase(text[i]))
  }

  /** The order of texts. */
  predicate Before(a: string, b: string) {
    b != "" && (a == "" || a[0] < b[0] || (a[0] == b[0] && Before(a[1..], b[1..])))
  }

  lemma {:induction false} BeforeOneWay(a: string, b: string)
    ensures a != b ==> (Before(a, b) <==> !Before(b, a))
    ensures !Before(a, a)
    decreases |a|
  {
    if a != "" {
      BeforeOneWay(a[1..], a[1..]);
      if b != "" {
        BeforeOneWay(a[1..], b[1..]);
        assert a == [a[0]] + a[1..] && b == [b[0]] + b[1..];
      }
    }
  }

  datatype RequestStatus = Pending | Accepted | Declined | Cancelled | Blocked

  /** Requests are numbered by their position, in the order of creation. */
  datatype FriendRequest = FriendRequest(requester: Account, target: Account, status: RequestStatus)

  datatype Control = Control(blocked: bool, muted: bool)

  datatype Graph = Graph(
    accounts: set<Account>,
    requests: seq<FriendRequest>,
    friendships: set<(Account, Account)>,
    controls: map<(Account, Account), Control>)

  function Empty(accounts: set<Account>): Graph { Graph(accounts, [], {}, map[]) }

  /** The stored key of an unordered pair. */
  function OrderPair(a: Account, b: Account): (Account, Account) { if Before(a, b) then (a, b) else (b, a) }

  /** The key a route looks for: ordered by the text as sent. */
  function SentPair(actor: Account, text: Text): (Account, Account) {
    if Before(actor, text) then (actor, Canonical(text)) else (Canonical(text), actor)
  }

  /** The text sorts against the actor's id as the account it names does. */
  predicate SameOrder(actor: Account, text: Text) { Before(actor, text) <==> Before(actor, Canonical(text)) }

  function PairOf(r: FriendRequest): (Account, Account) { OrderPair(r.requester, r.target) }

  /** A missing row reads as false. */
  function ControlOf(g: Graph, owner: Account, target: Account): Control {
    if (owner, target) in g.controls then g.controls[(owner, target)] else Control(false, false)
  }

  predicate Silenced(c: Control) { c.blocked || c.muted }

  predicate HasPending(g: Graph, requester: Account, target: Account) {
    exists i :: 0 <= i < |g.requests| && g.requests[i] == FriendRequest(requester, target, Pending)
  }

  /**
   The routes. `accepted`: the database accepts the statement, which gives one of the two flags and
   leaves the other unset.
   */
  datatype Route =
    | Send(actor: Account, target: Text)
    | Accept(actor: Account, id: nat)
    | Decline(actor: Account, id: nat)
    | Cancel(actor: Account, id: nat)
    | Remove(actor: Account, target: Text)
    | Block(actor: Account, target: Text)
    | Unblock(actor: Account, target: Text, accepted: bool)
    | Mute(actor: Account, target: Text, accepted: bool)
    | Unmute(actor: Account, target: Text, accepted: bool)

  function SetStatus(g: Graph, id: nat, status: RequestStatus): Graph
    requires id < |g.requests|
  {
    g.(requests := g.requests[id := g.requests[id].(status := status)])
  }

  function Add(g: Graph, requester: Account, target: Account, status: RequestStatus): Graph {
    g.(requests := g.requests + [FriendRequest(requester, target, status)])
  }

  function SetControl(g: Graph, owner: Account, target: Account, c: Control): Graph {
    g.(controls := g.controls[(owner, target) := c])
  }

  /** A request to oneself is refused, by the route or by the table's own check. */
  function SendRequest(g: Graph, actor: Account, text: Text): Option<Graph> {
    var target := Canonical(text);
    if actor == target || target !in g.accounts then None
    else if Silenced(ControlOf(g, actor, target)) || Silenced(ControlOf(g, target, actor)) then None
    else if SentPair(actor, text) in g.friendships then None
    else if HasPending(g, actor, target) || HasPending(g, target, actor) then None
    else Some(Add(g, actor, target, Pending))
  }

  /** Accepting asks only for the target and a pending status; it never looks at blocks. */
  function AcceptRequest(g: Graph, actor: Account, id: nat): Option<Graph> {
    if id >= |g.requests| || g.requests[id].target != actor || !g.requests[id].status.Pending? then None
    else
      var accepted := SetStatus(g, id, Accepted);
      Some(accepted.(friendships := accepted.friendships + {PairOf(g.requests[id])}))
  }

  function RemoveFriend(g: Graph, actor: Account, text: Text): Option<Graph> {
    if actor == Canonical(text) || SentPair(actor, text) !in g.friendships then None
    else Some(Add(g.(friendships := g.friendships - {SentPair(actor, text)}), actor, Canonical(text), Cancelled))
  }

  predicate Between(r: FriendRequest, a: Account, b: Account) {
    (r.requester == a && r.target == b) || (r.requester == b && r.target == a)
  }

  function CancelBetween(requests: seq<FriendRequest>, a: Account, b: Account): (out: seq<FriendRequest>)
    ensures |out| == |requests|
  {
    seq(|requests|, i requires 0 <= i < |requests| =>
      if Between(requests[i], a, b) && requests[i].status.Pending?
      then requests[i].(status := Cancelled) else requests[i])
  }

  function BlockAccount(g: Graph, actor: Account, text: Text): Option<Graph> {
    var target := Canonical(text);
    if actor == target || target !in g.accounts then None
    else
      var cut := g.(friendships := g.friendships - {SentPair(actor, text)},
                    requests := CancelBetween(g.requests, actor, target));
      Some(SetControl(Add(cut, actor, target, Blocked), actor, target,
                      Control(true, ControlOf(g, actor, target).muted)))
  }

  function Moderate(g: Graph, actor: Account, target: Account, c: Control, accepted: bool): Option<Graph> {
    if actor == target || target !in g.accounts || !accepted then None else Some(SetControl(g, actor, target, c))
  }

  /** A route's effect, or `None` when it refuses. */
  function Apply(g: Graph, route: Route): Option<Graph> {
    match route
    case Send(actor, target) => SendRequest(g, actor, target)
    case Accept(actor, id) => AcceptRequest(g, actor, id)
    case Decline(actor, id) =>
      if id < |g.requests| && g.requests[id].target == actor && g.requests[id].status.Pending?
      then Some(SetStatus(g, id, Declined)) else None
    case Cancel(actor, id) =>
      if id < |g.requests| && g.requests[id].requester == actor && g.requests[id].status.Pending?
      then Some(SetStatus(g, id, Cancelled)) else None
    case Remove(actor, target) => RemoveFriend(g, actor, target)
    case Block(actor, target) => BlockAccount(g, actor, target)
    case Unblock(actor, text, accepted) =>
      Moderate(g, actor, Canonical(text), ControlOf(g, actor, Canonical(text)).(blocked := false), accepted)
    case Mute(actor, text, accepted) =>
      Moderate(g, actor, Canonical(text), ControlOf(g, actor, Canonical(text)).(muted := true), accepted)
    case Unmute(actor, text, accepted) =>
      Moderate(g, actor, Canonical(text), ControlOf(g, actor, Canonical(text)).(muted := false), accepted)
  }

  function Next(g: Graph, route: Route): Graph {
    match Apply(g, route)
    case None => g
    case Some(after) => after
  }

  function Play(g: Graph, routes: seq<Route>): Graph {
    if routes == [] then g else Next(Play(g, routes[..|routes| - 1]), routes[|routes| - 1])
  }

  // ---------------------------------------------------------------- the invariant

  predicate IsPending(g: Graph, i: int) { 0 <= i < |g.requests| && g.requests[i].status.Pending? }

  ghost predicate RequestsOk(g: Graph) {
    && (forall i :: 0 <= i < |g.requests| ==> g.requests[i].requester != g.requests[i].target)
    && (forall i, j :: 0 <= i < j < |g.requests| && IsPending(g, i) && IsPending(g, j) ==>
          PairOf(g.requests[i]) != PairOf(g.requests[j]))
    && (forall i :: IsPending(g, i) ==> PairOf(g.requests[i]) !in g.friendships)
  }

  /** Friendship keys are strictly ordered, and each comes from a request that was accepted. */
  ghost predicate FriendshipsOk(g: Graph) {
    forall p :: p in g.friendships ==> Before(p.0, p.1) && Consented(g.requests, p)
  }

  ghost predicate Consented(requests: seq<FriendRequest>, p: (Account, Account)) {
    exists i :: 0 <= i < |requests| && requests[i].status.Accepted? && PairOf(requests[i]) == p
  }

  predicate BlockedEitherWay(g: Graph, a: Account, b: Account) {
    ControlOf(g, a, b).blocked || ControlOf(g, b, a).blocked
  }

  /** A block in either direction excludes friendship and pending requests. */
  ghost predicate BlocksOk(g: Graph) {
    forall a, b :: a != b && BlockedEitherWay(g, a, b) ==>
      OrderPair(a, b) !in g.friendships && forall i :: IsPending(g, i) ==> PairOf(g.requests[i]) != OrderPair(a, b)
  }

  ghost predicate Inv(g: Graph) { RequestsOk(g) && FriendshipsOk(g) && BlocksOk(g) }

  lemma PairsDiffer(a: Account, b: Account, c: Account, d: Account)
    ensures OrderPair(a, b) == OrderPair(c, d) <==> (a == c && b == d) || (a == d && b == c)
  {
    BeforeOneWay(a, b);
    hide Before;
  }

  lemma PairIsOrdered(a: Account, b: Account)
    requires a != b
    ensures Before(OrderPair(a, b).0, OrderPair(a, b).1)
  {
    BeforeOneWay(a, b);
    hide Before;
  }

  predicate Friends(g: Graph, a: Account, b: Account) { OrderPair(a, b) in g.friendships }

  /** A route finds the friendship it looks for exactly when the text sorts like the account. */
  lemma PairIsFound(g: Graph, actor: Account, text: Text)
    requires FriendshipsOk(g) && actor != Canonical(text)
    ensures SentPair(actor, text) in g.friendships <==> Friends(g, actor, Canonical(text)) && SameOrder(actor, text)
    ensures SameOrder(actor, text) ==> SentPair(actor, text) == OrderPair(actor, Canonical(text))
  {
    BeforeOneWay(actor, Canonical(text));
    hide Consented, Before;
  }

  lemma ConsentStays(before: seq<FriendRequest>, after: seq<FriendRequest>, p: (Account, Account))
    requires Consented(before, p) && |before| <= |after|
    requires forall i :: 0 <= i < |before| && before[i].status.Accepted? ==> after[i] == before[i]
    ensures Consented(after, p)
  {
    var i :| 0 <= i < |before| && before[i].status.Accepted? && PairOf(before[i]) == p;
    assert after[i] == before[i];
  }

  lemma FriendshipsStay(before: Graph, after: Graph)
    requires FriendshipsOk(before) && after.friendships <= before.friendships && |before.requests| <= |after.requests|
    requires forall i :: 0 <= i < |before.requests| && before.requests[i].status.Accepted? ==>
      after.requests[i] == before.requests[i]
    ensures FriendshipsOk(after)
  {
    forall p | p in after.friendships ensures Before(p.0, p.1) && Consented(after.requests, p) {
      ConsentStays(before.requests, after.requests, p);
    }
  }

  lemma SendKeepsInv(g: Graph, actor: Account, text: Text)
    requires Inv(g) && !Misses(g, Send(actor, text))
    ensures Inv(Next(g, Send(actor, text)))
  {
    hide Before, Canonical;
    var after := Next(g, Send(actor, text));
    FriendshipsStay(g, after) by { hide Consented, BlocksOk, RequestsOk; }
    if after != g {
      PairIsFound(g, actor, text);
      hide FriendshipsOk;
      NewPending(g, actor, text);
    }
  }

  /** The new request is the only pending one of its pair, and no block stands against it. */
  lemma NewPending(g: Graph, actor: Account, text: Text)
    requires RequestsOk(g) && BlocksOk(g) && SendRequest(g, actor, text).Some? && !Friends(g, actor, Canonical(text))
    ensures RequestsOk(SendRequest(g, actor, text).value) && BlocksOk(SendRequest(g, actor, text).value)
  {
    hide Before, Canonical;
    var target := Canonical(text);
    var after := SendRequest(g, actor, text).value;
    var n := |g.requests|;
    assert forall i :: 0 <= i < n ==> after.requests[i] == g.requests[i];
    forall i | 0 <= i < n && IsPending(g, i) ensures PairOf(g.requests[i]) != OrderPair(actor, target) {
      PairsDiffer(g.requests[i].requester, g.requests[i].target, actor, target);
      assert g.requests[i] == FriendRequest(g.requests[i].requester, g.requests[i].target, Pending);
    }
    assert forall i :: IsPending(after, i) ==> i == n || IsPending(g, i);
    forall a, b | a != b && BlockedEitherWay(after, a, b)
      ensures OrderPair(a, b) !in after.friendships
      ensures forall i :: IsPending(after, i) ==> PairOf(after.requests[i]) != OrderPair(a, b)
    {
      assert BlockedEitherWay(g, a, b);
      PairsDiffer(a, b, actor, target);
    }
  }

  lemma AcceptKeepsInv(g: Graph, actor: Account, id: nat)
    requires Inv(g)
    ensures Inv(Next(g, Accept(actor, id)))
  {
    hide Before;
    var after := Next(g, Accept(actor, id));
    if after != g {
      var p := PairOf(g.requests[id]);
      PairIsOrdered(g.requests[id].requester, g.requests[id].target);
      assert forall i :: IsPending(after, i) ==> i != id && IsPending(g, i);
      assert after.requests[id].status.Accepted? && PairOf(after.requests[id]) == p;
      assert Consented(after.requests, p);
      forall q | q in after.friendships ensures Before(q.0, q.1) && Consented(after.requests, q) {
        if q != p { ConsentStays(g.requests, after.requests, q); }
      }
      forall a, b | a != b && BlockedEitherWay(after, a, b)
        ensures OrderPair(a, b) !in after.friendships
        ensures forall i :: IsPending(after, i) ==> PairOf(after.requests[i]) != OrderPair(a, b)
      {
        assert BlockedEitherWay(g, a, b) && IsPending(g, id);
      }
      hide Consented;
    }
  }

  /** Closing a pending request removes it from consideration. */
  lemma CloseKeepsInv(g: Graph, id: nat, status: RequestStatus)
    requires Inv(g) && IsPending(g, id) && (status.Declined? || status.Cancelled?)
    ensures Inv(SetStatus(g, id, status))
  {
    hide Before;
    var after := SetStatus(g, id, status);
    FriendshipsStay(g, after) by { hide Consented, BlocksOk, RequestsOk; }
    hide FriendshipsOk;
    assert forall i :: IsPending(after, i) ==> i != id && IsPending(g, i) && after.requests[i] == g.requests[i];
    forall a, b | a != b && BlockedEitherWay(after, a, b)
      ensures OrderPair(a, b) !in after.friendships
      ensures forall i :: IsPending(after, i) ==> PairOf(after.requests[i]) != OrderPair(a, b)
    {
      assert BlockedEitherWay(g, a, b);
    }
  }

  lemma RemoveKeepsInv(g: Graph, actor: Account, text: Text)
    requires Inv(g)
    ensures Inv(Next(g, Remove(actor, text)))
  {
    hide Before, Canonical;
    var after := Next(g, Remove(actor, text));
    FriendshipsStay(g, after) by { hide Consented, BlocksOk, RequestsOk; }
    if after != g {
      hide FriendshipsOk;
      assert forall i :: IsPending(after, i) ==> IsPending(g, i) && after.requests[i] == g.requests[i];
      forall a, b | a != b && BlockedEitherWay(after, a, b)
        ensures OrderPair(a, b) !in after.friendships
        ensures forall i :: IsPending(after, i) ==> PairOf(after.requests[i]) != OrderPair(a, b)
      {
        assert BlockedEitherWay(g, a, b);
      }
    }
  }

  /** Removing ends a friendship exactly when there is one and the text sorts like the account. */
  lemma RemoveEndsFriendship(g: Graph, actor: Account, text: Text)
    requires Inv(g) && actor != Canonical(text)
    ensures RemoveFriend(g, actor, text).Some? <==> Friends(g, actor, Canonical(text)) && SameOrder(actor, text)
    ensures
      Friends(Next(g, Remove(actor, text)), actor, Canonical(text)) <==>
        Friends(g, actor, Canonical(text)) && !SameOrder(actor, text)
  {
    PairIsFound(g, actor, text);
    hide Inv, Before, Canonical, SameOrder;
  }

  lemma BlockKeepsInv(g: Graph, actor: Account, text: Text)
    requires Inv(g) && !Misses(g, Block(actor, text))
    ensures Inv(Next(g, Block(actor, text)))
  {
    hide Before, Canonical;
    var target := Canonical(text);
    var after := Next(g, Block(actor, text));
    if after != g {
      PairIsFound(g, actor, text);
      FriendshipsStay(g, after) by { hide Consented, BlocksOk, RequestsOk; }
      hide FriendshipsOk;
      assert !Friends(after, actor, target);
      var n := |g.requests|;
      assert forall i :: 0 <= i < n ==> PairOf(after.requests[i]) == PairOf(g.requests[i]);
      forall i | IsPending(after, i)
        ensures i < n && IsPending(g, i) && PairOf(g.requests[i]) != OrderPair(actor, target)
      {
        PairsDiffer(g.requests[i].requester, g.requests[i].target, actor, target);
      }
      forall a, b | a != b && BlockedEitherWay(after, a, b)
        ensures OrderPair(a, b) !in after.friendships
        ensures forall i :: IsPending(after, i) ==> PairOf(after.requests[i]) != OrderPair(a, b)
      {
        PairsDiffer(a, b, actor, target);
        assert OrderPair(a, b) == OrderPair(actor, target) || BlockedEitherWay(g, a, b);
      }
    }
  }

  /** Muting, unmuting and unblocking never create a block. */
  lemma ModerateKeepsInv(g: Graph, actor: Account, target: Account, c: Control)
    requires Inv(g) && (c.blocked ==> ControlOf(g, actor, target).blocked)
    ensures Inv(SetControl(g, actor, target, c))
  {
    hide Before;
    var after := SetControl(g, actor, target, c);
    assert after.requests == g.requests && after.friendships == g.friendships;
    hide Consented;
    assert RequestsOk(after) && FriendshipsOk(after) by { hide BlocksOk; }
    hide RequestsOk, FriendshipsOk;
    forall a, b | a != b && BlockedEitherWay(after, a, b)
      ensures OrderPair(a, b) !in after.friendships
      ensures forall i :: IsPending(after, i) ==> PairOf(after.requests[i]) != OrderPair(a, b)
    {
      assert BlockedEitherWay(g, a, b);
      assert forall i :: IsPending(after, i) ==> IsPending(g, i);
    }
  }

  // ---------------------------------------------------------------- texts that sort differently

  /** The route overlooks a friendship, because the text sorts differently from the account it names. */
  predicate Misses(g: Graph, route: Route) {
    match route
    case Send(actor, text) =>
      var target := Canonical(text);
      && target in g.accounts && Friends(g, actor, target) && !SameOrder(actor, text)
      && !Silenced(ControlOf(g, actor, target)) && !Silenced(ControlOf(g, target, actor))
    case Block(actor, text) =>
      Canonical(text) in g.accounts && Friends(g, actor, Canonical(text)) && !SameOrder(actor, text)
    case _ => false
  }

  lemma FriendsDiffer(g: Graph, a: Account, b: Account)
    requires FriendshipsOk(g) && Friends(g, a, b)
    ensures a != b
  {
    BeforeOneWay(a, a);
    hide Consented, Before;
  }

  /** A request between friends. */
  lemma MissedSendBreaks(g: Graph, actor: Account, text: Text)
    requires Inv(g) && Misses(g, Send(actor, text))
    ensures !Inv(Next(g, Send(actor, text)))
  {
    hide Before, Canonical;
    var target := Canonical(text);
    FriendsDiffer(g, actor, target);
    PairIsFound(g, actor, text);
    hide SameOrder, FriendshipsOk;
    forall i | 0 <= i < |g.requests|
      ensures g.requests[i] != FriendRequest(actor, target, Pending)
      ensures g.requests[i] != FriendRequest(target, actor, Pending)
    {
      PairsDiffer(g.requests[i].requester, g.requests[i].target, actor, target);
      assert g.requests[i].status.Pending? ==> IsPending(g, i);
    }
    var after := Next(g, Send(actor, text));
    assert after == Add(g, actor, target, Pending);
    assert IsPending(after, |g.requests|) && PairOf(after.requests[|g.requests|]) in after.friendships;
  }

  /** A friendship across a block. */
  lemma MissedBlockBreaks(g: Graph, actor: Account, text: Text)
    requires Inv(g) && Misses(g, Block(actor, text))
    ensures !Inv(Next(g, Block(actor, text)))
    ensures
      var after := Next(g, Block(actor, text));
      Friends(after, actor, Canonical(text)) && ControlOf(after, actor, Canonical(text)).blocked
  {
    hide Before, Canonical;
    FriendsDiffer(g, actor, Canonical(text));
    PairIsFound(g, actor, text);
    hide SameOrder, FriendshipsOk, RequestsOk;
    var after := Next(g, Block(actor, text));
    assert BlockedEitherWay(after, actor, Canonical(text)) && Friends(after, actor, Canonical(text));
  }

  /** Every route keeps the invariant, except one that overlooks a friendship. */
  lemma NextKeepsInv(g: Graph, route: Route)
    requires Inv(g)
    ensures Inv(Next(g, route)) <==> !Misses(g, route)
  {
    hide Inv, SendRequest, AcceptRequest, RemoveFriend, BlockAccount, SetStatus, SetControl, Canonical, Before;
    match route
    case Send(actor, text) =>
      if Misses(g, route) { MissedSendBreaks(g, actor, text); } else { SendKeepsInv(g, actor, text); }
    case Accept(actor, id) => AcceptKeepsInv(g, actor, id);
    case Decline(actor, id) => if IsPending(g, id) { CloseKeepsInv(g, id, Declined); }
    case Cancel(actor, id) => if IsPending(g, id) { CloseKeepsInv(g, id, Cancelled); }
    case Remove(actor, text) => RemoveKeepsInv(g, actor, text);
    case Block(actor, text) =>
      if Misses(g, route) { MissedBlockBreaks(g, actor, text); } else { BlockKeepsInv(g, actor, text); }
    case Unblock(actor, text, _) =>
      ModerateKeepsInv(g, actor, Canonical(text), ControlOf(g, actor, Canonical(text)).(blocked := false));
    case Mute(actor, text, _) =>
      ModerateKeepsInv(g, actor, Canonical(text), ControlOf(g, actor, Canonical(text)).(muted := true));
    case Unmute(actor, text, _) =>
      ModerateKeepsInv(g, actor, Canonical(text), ControlOf(g, actor, Canonical(text)).(muted := false));
  }

  lemma EmptyKeepsInv(accounts: set<Account>)
    ensures Inv(Empty(accounts))
  {
  }

  /** The invariant holds at every point of the run. */
  ghost predicate InvThroughout(accounts: set<Account>, routes: seq<Route>) {
    forall k :: 0 <= k <= |routes| ==> Inv(Play(Empty(accounts), routes[..k]))
  }

  /** No route of the run overlooks a friendship. */
  ghost predicate NothingMissed(accounts: set<Account>, routes: seq<Route>) {
    forall k :: 0 <= k < |routes| ==> !Misses(Play(Empty(accounts), routes[..k]), routes[k])
  }

  lemma PlayNext(g: Graph, routes: seq<Route>, k: nat)
    requires k < |routes|
    ensures Play(g, routes[..k + 1]) == Next(Play(g, routes[..k]), routes[k])
  {
    assert routes[..k + 1][..k] == routes[..k];
  }

  lemma {:induction false} InvUpTo(accounts: set<Account>, routes: seq<Route>, k: nat)
    requires NothingMissed(accounts, routes) && k <= |routes|
    ensures Inv(Play(Empty(accounts), routes[..k]))
    decreases k
  {
    hide Inv, Next, Misses;
    if k == 0 {
      EmptyKeepsInv(accounts);
    } else {
      InvUpTo(accounts, routes, k - 1);
      PlayNext(Empty(accounts), routes, k - 1);
      NextKeepsInv(Play(Empty(accounts), routes[..k - 1]), routes[k - 1]);
    }
  }

  /**
   For every run from tables without rows: at most one pending request per pair and none between
   friends, ordered friendship keys that each rest on an accepted request, and no friendship or
   pending request across a block hold throughout exactly when no route overlooks a friendship.
   */
  lemma InvUnlessMissed(accounts: set<Account>, routes: seq<Route>)
    ensures InvThroughout(accounts, routes) <==> NothingMissed(accounts, routes)
  {
    hide Inv, Next, Misses, Play;
    if NothingMissed(accounts, routes) {
      forall k | 0 <= k <= |routes| ensures Inv(Play(Empty(accounts), routes[..k])) { InvUpTo(accounts, routes, k); }
    }
    if InvThroughout(accounts, routes) {
      forall k | 0 <= k < |routes| ensures !Misses(Play(Empty(accounts), routes[..k]), routes[k]) {
        PlayNext(Empty(accounts), routes, k);
        assert Inv(Play(Empty(accounts), routes[..k])) && Inv(Play(Empty(accounts), routes[..k + 1]));
        NextKeepsInv(Play(Empty(accounts), routes[..k]), routes[k]);
      }
    }
  }

  /** A caller's guard: the text of a request's or a block's target sorts like the account it names. */
  predicate SortsAlike(route: Route) { (route.Send? || route.Block?) ==> SameOrder(route.actor, route.target) }

  predicate IsLowerCase(text: Text) { forall i :: 0 <= i < |text| ==> !('A' <= text[i] <= 'F') }

  /** Lower case is enough. */
  lemma LowerCaseSortsAlike(actor: Account, text: Text)
    requires IsLowerCase(text)
    ensures Canonical(text) == text && SameOrder(actor, text)
  {
    assert Canonical(text) == text;
  }

  /** With such texts every route sequence keeps the invariant. */
  lemma EverySequenceKeepsInv(accounts: set<Account>, routes: seq<Route>)
    requires forall k :: 0 <= k < |routes| ==> SortsAlike(routes[k])
    ensures Inv(Play(Empty(accounts), routes))
  {
    hide Inv, Play, SameOrder;
    InvUnlessMissed(accounts, routes);
    assert routes[..|routes|] == routes;
  }

  /**
   A run that overlooks a friendship: two accounts become friends, and one of them blocks the other
   under a text that sorts the other way, or sends another request under it.
   */
  lemma MissedRun(a: Account, b: Account, text: Text)
    requires a != b && Canonical(a) == a && Canonical(b) == b && Canonical(text) == b && !SameOrder(a, text)
    ensures
      var friends := [Send(a, b), Accept(b, 0)];
      && Inv(Play(Empty({a, b}), friends)) && Friends(Play(Empty({a, b}), friends), a, b)
      && !Inv(Play(Empty({a, b}), friends + [Block(a, text)]))
      && !Inv(Play(Empty({a, b}), friends + [Send(a, text)]))
  {
    hide Before, Canonical;
    var g := Empty({a, b});
    var friends := [Send(a, b), Accept(b, 0)];
    assert friends[..0] == [] && friends[..1] == [Send(a, b)] && friends[..2] == friends;
    PlayNext(g, friends, 0);
    PlayNext(g, friends, 1);
    var sent := Add(g, a, b, Pending);
    assert Next(g, Send(a, b)) == sent;
    EmptyKeepsInv({a, b});
    hide Inv;
    SendKeepsInv(g, a, b);
    AcceptKeepsInv(sent, b, 0);
    var befriended := Next(sent, Accept(b, 0));
    assert Friends(befriended, a, b);
    AppendedRoute(g, friends, Block(a, text));
    AppendedRoute(g, friends, Send(a, text));
    MissedBlockBreaks(befriended, a, text);
    MissedSendBreaks(befriended, a, text);
  }

  lemma AppendedRoute(g: Graph, routes: seq<Route>, route: Route)
    ensures Play(g, routes + [route]) == Next(Play(g, routes), route)
  {
    assert (routes + [route])[..|routes|] == routes;
  }

  /** An upper-case letter sorts before the lower-case ones, the account it stands for possibly after. */
  lemma UpperCaseSortsDifferently(actor: Account, text: Text)
    requires actor != "" && text != ""
    requires 'A' <= text[0] <= 'F' && 'a' <= actor[0] < LowerCase(text[0])
    ensures !SameOrder(actor, text)
  {
    assert Canonical(text)[0] == LowerCase(text[0]);
  }

  // ---------------------------------------------------------------- a block holds

  /** What holds in every run, whatever the texts: friendship keys are ordered, and nobody asks themselves. */
  ghost predicate Sound(g: Graph) {
    FriendshipsOk(g) && forall i :: 0 <= i < |g.requests| ==> g.requests[i].requester != g.requests[i].target
  }

  lemma AcceptKeepsSound(g: Graph, actor: Account, id: nat)
    requires Sound(g)
    ensures Sound(Next(g, Accept(actor, id)))
  {
    hide Before;
    var after := Next(g, Accept(actor, id));
    if after != g {
      var p := PairOf(g.requests[id]);
      PairIsOrdered(g.requests[id].requester, g.requests[id].target);
      assert after.requests[id].status.Accepted? && PairOf(after.requests[id]) == p;
      forall q | q in after.friendships ensures Before(q.0, q.1) && Consented(after.requests, q) {
        if q != p { ConsentStays(g.requests, after.requests, q); }
      }
    }
  }

  lemma NextKeepsSound(g: Graph, route: Route)
    requires Sound(g)
    ensures Sound(Next(g, route))
  {
    if route.Accept? {
      AcceptKeepsSound(g, route.actor, route.id);
    } else {
      hide Consented, HasPending, Canonical, Before, SentPair, OrderPair;
      FriendshipsStay(g, Next(g, route)) by { hide FriendshipsOk; }
      hide FriendshipsOk;
    }
  }

  lemma {:induction false} PlayKeepsSound(accounts: set<Account>, routes: seq<Route>)
    ensures Sound(Play(Empty(accounts), routes)) && Play(Empty(accounts), routes).accounts == accounts
  {
    if routes != [] {
      hide Sound;
      var n := |routes| - 1;
      PlayKeepsSound(accounts, routes[..n]);
      NextKeepsSound(Play(Empty(accounts), routes[..n]), routes[n]);
      AccountsStay(Play(Empty(accounts), routes[..n]), routes[n]);
      hide Next;
    }
  }

  lemma AccountsStay(g: Graph, route: Route)
    ensures Next(g, route).accounts == g.accounts
  {
    hide Canonical, HasPending, SentPair;
  }

  predicate Unblocks(route: Route, a: Account, b: Account) {
    route.Unblock? && route.actor == a && Canonical(route.target) == b && route.accepted
  }

  /** `a` blocks `b`; they are not friends, and no request is pending between them. */
  ghost predicate Apart(g: Graph, a: Account, b: Account) {
    && ControlOf(g, a, b).blocked && !Friends(g, a, b)
    && forall i :: IsPending(g, i) ==> !Between(g.requests[i], a, b)
  }

  lemma NextKeepsApart(g: Graph, route: Route, a: Account, b: Account)
    requires Apart(g, a, b) && !Unblocks(route, a, b)
    ensures Apart(Next(g, route), a, b)
  {
    hide HasPending, Canonical, SentPair, OrderPair;
    var after := Next(g, route);
    assert ControlOf(after, a, b).blocked by { hide CancelBetween; }
    if route.Accept? && after != g {
      PairsDiffer(g.requests[route.id].requester, g.requests[route.id].target, a, b);
      assert IsPending(g, route.id);
    }
    assert after.friendships <= g.friendships || route.Accept?;
    forall i | IsPending(after, i) ensures !Between(after.requests[i], a, b) {
      assert route.Send? || IsPending(g, i);
    }
  }

  lemma {:induction false} PlayKeepsApart(g: Graph, routes: seq<Route>, a: Account, b: Account)
    requires Apart(g, a, b) && forall k :: 0 <= k < |routes| ==> !Unblocks(routes[k], a, b)
    ensures Apart(Play(g, routes), a, b)
  {
    if routes != [] {
      hide Apart, Next, Unblocks;
      var n := |routes| - 1;
      PlayKeepsApart(g, routes[..n], a, b);
      NextKeepsApart(Play(g, routes[..n]), routes[n], a, b);
    }
  }

  /** A block separates the two, unless it overlooks that they are friends. */
  lemma BlockSeparates(g: Graph, a: Account, text: Text)
    requires FriendshipsOk(g) && a != Canonical(text) && Canonical(text) in g.accounts
    ensures Apart(Next(g, Block(a, text)), a, Canonical(text)) <==> !Misses(g, Block(a, text))
  {
    hide Canonical, Before, Consented;
    PairIsFound(g, a, text);
    var after := Next(g, Block(a, text));
    assert forall i :: IsPending(after, i) ==> !Between(after.requests[i], a, Canonical(text));
    hide SameOrder;
  }

  ghost predicate NeverUnblocks(routes: seq<Route>, a: Account, b: Account) {
    forall k :: 0 <= k < |routes| ==> !Unblocks(routes[k], a, b)
  }

  /** Whatever anyone does from here, until the database accepts that `a` unblocks `b`. */
  ghost predicate StaysApart(g: Graph, a: Account, b: Account) {
    forall routes :: NeverUnblocks(routes, a, b) ==> Apart(Play(g, routes), a, b)
  }

  /**
   After any run, when `a` blocks `b`: nothing anyone does makes them friends or leaves a request
   pending between them until `a` unblocks `b`, exactly when the block did not overlook that they
   were friends.
   */
  lemma BlockedUntilUnblocked(accounts: set<Account>, before: seq<Route>, a: Account, text: Text)
    requires a != Canonical(text) && Canonical(text) in accounts
    ensures
      var g := Play(Empty(accounts), before);
      StaysApart(Next(g, Block(a, text)), a, Canonical(text)) <==>
        (Friends(g, a, Canonical(text)) ==> SameOrder(a, text))
  {
    PlayKeepsSound(accounts, before);
    var g := Play(Empty(accounts), before);
    BlockSeparates(g, a, text);
    hide Sound, Apart, Next, Unblocks, Canonical, SameOrder, Friends;
    var b, blocked := Canonical(text), Next(g, Block(a, text));
    if Apart(blocked, a, b) {
      forall routes | NeverUnblocks(routes, a, b) ensures Apart(Play(blocked, routes), a, b) {
        PlayKeepsApart(blocked, routes, a, b);
      }
    } else {
      assert NeverUnblocks([], a, b) && Play(blocked, []) == blocked;
    }
  }

  // ---------------------------------------------------------------- who changes what

  /** The status a route gives to a request that is stored already. */
  function StatusAfter(g: Graph, route: Route, i: nat): RequestStatus
    requires i < |g.requests|
  {
    var r := g.requests[i];
    if !r.status.Pending? then r.status
    else if route == Accept(r.target, i) then Accepted
    else if route == Decline(r.target, i) then Declined
    else if route == Cancel(r.requester, i) then Cancelled
    else if Settles(g, route, r.requester, r.target) && route.Block? then Cancelled
    else if Settles(g, route, r.target, r.requester) && route.Block? then Cancelled
    else r.status
  }

  /**
   A stored request changes only while it is pending: its target accepts or declines it, its requester
   cancels it, or one of the two blocks the other. Nothing else of it changes, and at most one request
   is added.
   */
  lemma RequestsFollow(g: Graph, route: Route, i: nat)
    requires i < |g.requests|
    ensures
      var after := Next(g, route).requests;
      && |g.requests| <= |after| <= |g.requests| + 1 && after[i] == g.requests[i].(status := StatusAfter(g, route, i))
      && (|after| > |g.requests| ==>
            (route.Send? || route.Remove? || route.Block?) &&
            after[|g.requests|] == FriendRequest(route.actor, Canonical(route.target),
              if route.Send? then Pending else if route.Remove? then Cancelled else Blocked))
  {
    hide HasPending, Canonical, SentPair, PairOf;
  }

  /**
   Two accounts are friends after a route exactly when its actor accepted a request from the other, or
   they were friends and neither removed or blocked the other under a text that finds the friendship.
   */
  lemma FriendshipFollows(g: Graph, route: Route, a: Account, b: Account)
    requires Sound(g) && a != b
    ensures
      Friends(Next(g, route), a, b) <==>
        || (route.Accept? && IsPending(g, route.id) && route.actor == g.requests[route.id].target
            && Between(g.requests[route.id], a, b))
        || (Friends(g, a, b) && !Ends(g, route, a, b) && !Ends(g, route, b, a))
  {
    hide HasPending, Canonical, Before, Consented, Inv;
    PairsDiffer(a, b, b, a);
    if route.Accept? && route.id < |g.requests| {
      PairsDiffer(a, b, g.requests[route.id].requester, g.requests[route.id].target);
    }
    if route.Remove? || route.Block? {
      var target := Canonical(route.target);
      if route.actor != target {
        PairIsFound(g, route.actor, route.target);
        PairsDiffer(a, b, route.actor, target);
      }
    }
  }

  /** `a` removes or blocks `b` under a text that finds the friendship. */
  predicate Ends(g: Graph, route: Route, a: Account, b: Account) {
    && (route.Remove? || (route.Block? && b in g.accounts))
    && route.actor == a && Canonical(route.target) == b && SameOrder(a, route.target)
  }

  // ---------------------------------------------------------------- a mute holds

  /** The route is an accepted statement of `a` about another existing account `b`. */
  predicate Settles(g: Graph, route: Route, a: Account, b: Account) {
    && (route.Block? || route.Unblock? || route.Mute? || route.Unmute?)
    && route.actor == a && Canonical(route.target) == b && a != b && b in g.accounts
    && (!route.Block? ==> route.accepted)
  }

  /** Each of the two flags says what the last accepted statement of its owner about it said. */
  lemma FlagsFollow(g: Graph, route: Route, a: Account, b: Account)
    ensures
      var before, after := ControlOf(g, a, b), ControlOf(Next(g, route), a, b);
      && after.blocked ==
           (if Settles(g, route, a, b) && (route.Block? || route.Unblock?) then route.Block? else before.blocked)
      && after.muted ==
           (if Settles(g, route, a, b) && (route.Mute? || route.Unmute?) then route.Mute? else before.muted)
  {
    hide HasPending, CancelBetween, Canonical, SentPair, PairOf;
  }

  predicate Unmutes(route: Route, a: Account, b: Account) {
    route.Unmute? && route.actor == a && Canonical(route.target) == b && route.accepted
  }

  lemma {:induction false} MuteStays(g: Graph, routes: seq<Route>, a: Account, b: Account)
    requires ControlOf(g, a, b).muted && forall k :: 0 <= k < |routes| ==> !Unmutes(routes[k], a, b)
    ensures ControlOf(Play(g, routes), a, b).muted
  {
    if routes != [] {
      hide Next, ControlOf, Canonical;
      var n := |routes| - 1;
      MuteStays(g, routes[..n], a, b);
      FlagsFollow(Play(g, routes[..n]), routes[n], a, b);
    }
  }

  /**
   Once the database has accepted that `a` mutes `b`, neither can send the other a request, whatever
   anyone does, until it accepts that `a` unmutes `b`.
   */
  lemma MutedUntilUnmuted(g: Graph, a: Account, b: Account, muting: Route, routes: seq<Route>, text: Text)
    requires muting.Mute? && Settles(g, muting, a, b)
    requires forall k :: 0 <= k < |routes| ==> !Unmutes(routes[k], a, b)
    ensures
      var after := Play(Next(g, muting), routes);
      && (Canonical(text) == b ==> Apply(after, Send(a, text)).None?)
      && (Canonical(text) == a ==> Apply(after, Send(b, text)).None?)
  {
    FlagsFollow(g, muting, a, b);
    hide Next, Canonical;
    MuteStays(Next(g, muting), routes, a, b);
    hide Play;
  }

  // ---------------------------------------------------------------- the tables

  class Tables {
    var accounts: set<Account>
    var requests: seq<FriendRequest>
    var friendships: set<(Account, Account)>
    var controls: map<(Account, Account), Control>

    constructor (accounts: set<Account>)
      ensures View() == Empty(accounts)
    {
      this.accounts := accounts;
      requests, friendships, controls := [], {}, map[];
    }

    function View(): Graph
      reads this
    {
      Graph(accounts, requests, friendships, controls)
    }

    method Send(actor: Account, text: Text) returns (ok: bool)
      modifies this`requests
      ensures View() == Next(old(View()), Route.Send(actor, text))
      ensures ok == Apply(old(View()), Route.Send(actor, text)).Some?
    {
      var target := Canonical(text);
      if actor == target || target !in accounts {
        return false;
      }
      var own := ControlOf(View(), actor, target);
      if own.blocked || own.muted {
        return false;
      }
      var theirs := ControlOf(View(), target, actor);
      if theirs.blocked || theirs.muted {
        return false;
      }
      if SentPair(actor, text) in friendships {
        return false;
      }
      if HasPending(View(), actor, target) || HasPending(View(), target, actor) {
        return false;
      }
      requests := requests + [FriendRequest(actor, target, Pending)];
      ok := true;
    }

    method Accept(actor: Account, id: nat) returns (ok: bool)
      modifies this`requests, this`friendships
      ensures View() == Next(old(View()), Route.Accept(actor, id))
      ensures ok == Apply(old(View()), Route.Accept(actor, id)).Some?
    {
      if id >= |requests| || requests[id].target != actor || !requests[id].status.Pending? {
        return false;
      }
      var pair := PairOf(requests[id]);
      requests := requests[id := requests[id].(status := Accepted)];
      friendships := friendships + {pair};
      ok := true;
    }

    method Decline(actor: Account, id: nat) returns (ok: bool)
      modifies this`requests
      ensures View() == Next(old(View()), Route.Decline(actor, id))
      ensures ok == Apply(old(View()), Route.Decline(actor, id)).Some?
    {
      ok := id < |requests| && requests[id].target == actor && requests[id].status.Pending?;
      if ok {
        requests := requests[id := requests[id].(status := Declined)];
      }
    }

    method Cancel(actor: Account, id: nat) returns (ok: bool)
      modifies this`requests
      ensures View() == Next(old(View()), Route.Cancel(actor, id))
      ensures ok == Apply(old(View()), Route.Cancel(actor, id)).Some?
    {
      ok := id < |requests| && requests[id].requester == actor && requests[id].status.Pending?;
      if ok {
        requests := requests[id := requests[id].(status := Cancelled)];
      }
    }

    method Remove(actor: Account, text: Text) returns (removed: bool)
      modifies this`requests, this`friendships
      ensures View() == Next(old(View()), Route.Remove(actor, text))
      ensures removed == Apply(old(View()), Route.Remove(actor, text)).Some?
    {
      var target, pair := Canonical(text), SentPair(actor, text);
      if actor == target || pair !in friendships {
        return false;
      }
      friendships := friendships - {pair};
      requests := requests + [FriendRequest(actor, target, Cancelled)];
      removed := true;
    }

    method Block(actor: Account, text: Text) returns (ok: bool)
      modifies this`requests, this`friendships, this`controls
      ensures View() == Next(old(View()), Route.Block(actor, text))
      ensures ok == Apply(old(View()), Route.Block(actor, text)).Some?
    {
      var target := Canonical(text);
      if actor == target || target !in accounts {
        return false;
      }
      var muted := ControlOf(View(), actor, target).muted;
      friendships := friendships - {SentPair(actor, text)};
      requests := CancelBetween(requests, actor, target);
      requests := requests + [FriendRequest(actor, target, Blocked)];
      controls := controls[(actor, target) := Control(true, muted)];
      ok := true;
    }

    /** Insert or update one control row; an absent flag keeps its stored value. */
    method Upsert(actor: Account, target: Account, blocked: Option<bool>, muted: Option<bool>, accepted: bool)
      returns (ok: bool)
      modifies this`controls
      ensures ok == (actor != target && target in accounts && accepted)
      ensures
        var before := ControlOf(old(View()), actor, target);
        var after := Control(if blocked.Some? then blocked.value else before.blocked,
                             if muted.Some? then muted.value else before.muted);
        View() == if ok then SetControl(old(View()), actor, target, after) else old(View())
    {
      ok := actor != target && target in accounts && accepted;
      if ok {
        var before := ControlOf(View(), actor, target);
        controls := controls[(actor, target) :=
          Control(if blocked.Some? then blocked.value else before.blocked,
                  if muted.Some? then muted.value else before.muted)];
      }
    }

    method Unblock(actor: Account, text: Text, accepted: bool) returns (ok: bool)
      modifies this`controls
      ensures View() == Next(old(View()), Route.Unblock(actor, text, accepted))
      ensures ok == Apply(old(View()), Route.Unblock(actor, text, accepted)).Some?
    {
      ok := Upsert(actor, Canonical(text), Some(false), None, accepted);
    }

    method SetMuted(actor: Account, text: Text, muted: bool, accepted: bool) returns (ok: bool)
      modifies this`controls
      ensures
        var route := if muted then Route.Mute(actor, text, accepted) else Route.Unmute(actor, text, accepted);
        View() == Next(old(View()), route) && ok == Apply(old(View()), route).Some?
    {
      ok := Upsert(actor, Canonical(text), None, Some(muted), accepted);
    }
  }
}
