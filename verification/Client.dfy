/** pkg/devmesh/client.go: the producer's side of a lease. */
module Client {
  import opened Types

  const DEFAULT_TTL: int := 15 * SECOND
  const MILLISECOND: int := 1_000_000
  const MIN_BACKOFF: int := 100 * MILLISECOND
  const MAX_BACKOFF: int := 5 * SECOND

  /** The daemon's answer to a registration; `expires` is None if there is no expiry in it
      or it cannot be read. */
  datatype Response = Response(id: Id, token: string, ttlSeconds: int, expires: Option<int>)

  /** What a heartbeat comes back with: renewed (with the new expiry, if it can be read),
      unknown to the daemon (with the answer to the re-registration, if that got one), or
      any other failure. */
  datatype Beat = Renewed(expires: Option<int>) | Unknown(again: Option<Response>) | Failed

  function BelievedTTL(r: Response): int {
    if r.ttlSeconds > 0 then r.ttlSeconds * SECOND else DEFAULT_TTL
  }

  function Interval(ttl: int): int {
    if ttl / 3 < SECOND then SECOND else ttl / 3
  }

  function Doubled(backoff: int): int {
    if 2 * backoff > MAX_BACKOFF then MAX_BACKOFF else 2 * backoff
  }

  /** The registration the client stands for after these heartbeats: the last one it
      adopted, or the first. */
  function Current(first: Response, beats: seq<Beat>): Response {
    if beats == [] then first
    else match beats[|beats| - 1]
      case Unknown(Some(r)) => r
      case _ => Current(first, beats[..|beats| - 1])
  }

  /** The expiry the client knows of: that of its latest registration or renewal. */
  function Expiry(first: Option<int>, beats: seq<Beat>): Option<int> {
    if beats == [] then first
    else match beats[|beats| - 1]
      case Renewed(Some(t)) => Some(t)
      case Unknown(Some(r)) => r.expires
      case _ => Expiry(first, beats[..|beats| - 1])
  }

  /** How many heartbeats in a row have failed. */
  function Failures(beats: seq<Beat>): nat {
    if beats == [] then 0
    else match beats[|beats| - 1]
      case Failed => Failures(beats[..|beats| - 1]) + 1
      case Unknown(None) => Failures(beats[..|beats| - 1]) + 1
      case _ => 0
  }

  /** The retry delay after so many failures in a row, before jitter. */
  function Backoff(failures: nat): (b: int)
    ensures MIN_BACKOFF <= b <= MAX_BACKOFF
  {
    if failures == 0 then MIN_BACKOFF else Doubled(Backoff(failures - 1))
  }

  function Spread(d: int, part: real): (r: int)
    requires 0.0 <= part <= d as real
    ensures 8 * d - 10 <= 10 * r <= 12 * d
  {
    var y := 0.8 * d as real + 0.4 * part;
    assert (10 * y.Floor) as real <= 10.0 * y <= (12 * d) as real;
    y.Floor
  }

  /** A delay spread by the random draw `f`, in whole nanoseconds: at most a fifth off. */
  function Jittered(d: int, f: real): (r: int)
    requires d >= 0 && 0.0 <= f < 1.0
    ensures 8 * d - 10 <= 10 * r <= 12 * d
  {
    assert 0.0 <= d as real * f <= d as real;
    Spread(d, d as real * f)
  }

  /** What the loop waits after the i-th heartbeat: one interval of the registration it
      stands for, or the jittered delay that the failures before it call for. */
  function DelayAfter(first: Response, beats: seq<Beat>, draws: seq<real>, i: nat): int
    requires i < |beats| == |draws| && 0.0 <= draws[i] < 1.0
  {
    if Failures(beats[..i + 1]) == 0 then Interval(BelievedTTL(Current(first, beats[..i + 1])))
    else Jittered(Backoff(Failures(beats[..i])), draws[i])
  }

  // ----- The same in numbers -----

  /** An answer that names no duration stands for fifteen seconds. */
  lemma BelievedIs(r: Response)
    ensures BelievedTTL(r) == if r.ttlSeconds > 0 then r.ttlSeconds * 1_000_000_000 else 15_000_000_000
  {}

  /** The interval is a third of the TTL, rounded down to nanoseconds, and at least a second. */
  lemma IntervalIs(ttl: int)
    ensures ttl >= 3_000_000_000 ==> 3 * Interval(ttl) <= ttl < 3 * Interval(ttl) + 3
    ensures ttl < 3_000_000_000 ==> Interval(ttl) == 1_000_000_000
  {}

  /** A tenth of a second, doubled with every failure, and never more than five seconds. */
  lemma {:induction false} BackoffIs(n: nat)
    ensures Backoff(n) ==
      match n
      case 0 => 100_000_000
      case 1 => 200_000_000
      case 2 => 400_000_000
      case 3 => 800_000_000
      case 4 => 1_600_000_000
      case 5 => 3_200_000_000
      case _ => 5_000_000_000
  {
    if n > 0 {
      BackoffIs(n - 1);
    }
  }

  /** Renewed, or registered again. */
  predicate Success(b: Beat) { b.Renewed? || (b.Unknown? && b.again.Some?) }

  lemma {:induction false} FailuresAre(beats: seq<Beat>, k: nat)
    requires k <= |beats| && forall i :: |beats| - k <= i < |beats| ==> !Success(beats[i])
    requires k == |beats| || Success(beats[|beats| - k - 1])
    ensures Failures(beats) == k
  {
    if k > 0 {
      FailuresAre(beats[..|beats| - 1], k - 1);
    }
  }

  /** After a heartbeat that succeeds the loop waits one interval of the registration it
      then stands for; after one that fails, with `k` failures right before it, a tenth of a
      second doubled `k` times, at most five seconds, a fifth up or down. */
  lemma DelayIs(first: Response, beats: seq<Beat>, draws: seq<real>, i: nat, k: nat)
    requires i < |beats| == |draws| && 0.0 <= draws[i] < 1.0
    requires k <= i && (forall j :: i - k <= j < i ==> !Success(beats[j])) && (k == i || Success(beats[i - k - 1]))
    ensures DelayAfter(first, beats, draws, i) ==
      if Success(beats[i]) then Interval(BelievedTTL(Current(first, beats[..i + 1])))
      else Jittered(Backoff(k), draws[i])
  {
    FailuresAre(beats[..i], k);
    if Success(beats[i]) {
      FailuresAre(beats[..i + 1], 0);
    } else {
      FailuresAre(beats[..i + 1], k + 1);
    }
  }

  /** The registration the client stands for is the last it was given. */
  lemma {:induction false} CurrentIs(first: Response, beats: seq<Beat>, i: int)
    requires -1 <= i < |beats| && (i >= 0 ==> beats[i].Unknown? && beats[i].again.Some?)
    requires forall j :: i < j < |beats| ==> !(beats[j].Unknown? && beats[j].again.Some?)
    ensures Current(first, beats) == if i < 0 then first else beats[i].again.value
  {
    if beats != [] && i < |beats| - 1 {
      CurrentIs(first, beats[..|beats| - 1], i);
    }
  }

  /** The expiry it knows of is that of the last registration or readable renewal. */
  lemma {:induction false} ExpiryIs(first: Option<int>, beats: seq<Beat>, i: int)
    requires -1 <= i < |beats|
    requires i >= 0 ==> (beats[i].Renewed? && beats[i].expires.Some?) || (beats[i].Unknown? && beats[i].again.Some?)
    requires forall j :: i < j < |beats| ==>
      !(beats[j].Renewed? && beats[j].expires.Some?) && !(beats[j].Unknown? && beats[j].again.Some?)
    ensures Expiry(first, beats) ==
      if i < 0 then first else if beats[i].Renewed? then beats[i].expires else beats[i].again.value.expires
  {
    if beats != [] && i < |beats| - 1 {
      ExpiryIs(first, beats[..|beats| - 1], i);
    }
  }

  class Handle {
    var regID: Id
    var token: string
    var ttl: int
    var expires: Option<int>
    var closed: bool
    /** The heartbeat loop has been told to stop. */
    var cancelled: bool
    ghost var last: Response

    ghost predicate Valid() reads this {
      regID == last.id && token == last.token && ttl == BelievedTTL(last)
    }

    constructor (r: Response)
      ensures Valid() && last == r && expires == r.expires && !closed && !cancelled
    {
      regID, token, ttl, expires, closed, cancelled, last := r.id, r.token, BelievedTTL(r), r.expires, false, false, r;
    }

    /** Takes over the identity, TTL and expiry of a new registration. */
    method Adopt(r: Response)
      modifies this
      ensures Valid() && last == r && expires == r.expires && closed == old(closed) && cancelled == old(cancelled)
    {
      ttl := DEFAULT_TTL;
      if r.ttlSeconds > 0 {
        ttl := r.ttlSeconds * SECOND;
      }
      regID, token, expires, last := r.id, r.token, r.expires, r;
    }

    method HeartbeatInterval() returns (interval: int)
      requires Valid()
      ensures interval == Interval(BelievedTTL(last))
    {
      interval := ttl / 3;
      if interval < SECOND {
        interval := SECOND;
      }
    }

    /** The heartbeat loop over the outcomes it meets until it is cancelled; `delays[i]` is
        what it waits after the i-th. It always stands for the latest registration and
        knows the latest expiry, waits one interval after any success, and backs off within
        bounds after failures. */
    method HeartbeatLoop(beats: seq<Beat>, draws: seq<real>) returns (delays: seq<int>)
      requires Valid() && |draws| == |beats| && forall i :: 0 <= i < |draws| ==> 0.0 <= draws[i] < 1.0
      modifies this
      ensures Valid() && last == Current(old(last), beats) && expires == Expiry(old(expires), beats)
      ensures closed == old(closed) && cancelled == old(cancelled)
      ensures |delays| == |beats|
      ensures forall i :: 0 <= i < |beats| ==> delays[i] == DelayAfter(old(last), beats, draws, i)
    {
      delays := [];
      var backoff := MIN_BACKOFF;
      var i := 0;
      while i < |beats|
        invariant 0 <= i <= |beats| && |delays| == i && Valid() && closed == old(closed) && cancelled == old(cancelled)
        invariant last == Current(old(last), beats[..i]) && expires == Expiry(old(expires), beats[..i])
        invariant backoff == Backoff(Failures(beats[..i]))
        invariant forall j :: 0 <= j < i ==> delays[j] == DelayAfter(old(last), beats, draws, j)
      {
        assert beats[..i + 1][..i] == beats[..i];
        var beat := beats[i];
        if beat.Renewed? || (beat.Unknown? && beat.again.Some?) {
          if beat.Unknown? {
            Adopt(beat.again.value);
          } else if beat.expires.Some? {
            expires := beat.expires;
          }
          backoff := MIN_BACKOFF;
          var interval := HeartbeatInterval();
          delays := delays + [interval];
        } else {
          delays := delays + [Jittered(backoff, draws[i])];
          backoff := backoff * 2;
          if backoff > MAX_BACKOFF {
            backoff := MAX_BACKOFF;
          }
        }
        i := i + 1;
      }
      assert beats[..i] == beats;
    }

    /** Stops the loop and deletes the latest registration, once. `late` is what the loop
        still adopts between being told to stop and being waited for, if anything: then
        that is the registration to delete. */
    method Close(late: Option<Response>) returns (deleted: Option<(Id, string)>)
      requires Valid()
      modifies this
      ensures Valid() && closed && (old(closed) ==> cancelled == old(cancelled)) && (!old(closed) ==> cancelled)
      ensures last == if !old(closed) && late.Some? then late.value else old(last)
      ensures deleted == if old(closed) || last.id == "" || last.token == "" then None else Some((last.id, last.token))
    {
      if closed {
        return None;
      }
      closed := true;
      cancelled := true;
      if late.Some? {
        Adopt(late.value);
      }
      if regID == "" || token == "" {
        return None;
      }
      deleted := Some((regID, token));
    }
  }

  // ----- The two sides together -----

  /** For every lease the daemon grants, the client believes in a TTL that is no longer
      than the daemon's, never falls back to its default, and fits three heartbeat
      intervals into it. */
  lemma ClientNeverOverestimates(ttl: int, r: Response)
    requires MIN_TTL <= ttl <= MAX_TTL && r.ttlSeconds == ttl / SECOND
    ensures r.ttlSeconds >= 3 && BelievedTTL(r) == r.ttlSeconds * SECOND
    ensures 3 * Interval(BelievedTTL(r)) <= BelievedTTL(r) <= ttl
    ensures 2 * Interval(BelievedTTL(r)) < ttl
  {}
}
