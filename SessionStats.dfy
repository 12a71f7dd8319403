/** The dashboard's session summary (`getSessionStats`): counts of the listed sessions by status. */
module SessionStats {
  import opened Sessions

  datatype Stats = Stats(total: nat, ready: nat, connecting: nat, disconnected: nat)

  /** `sessions.filter(s => s.status in wanted).length`. */
  function CountIn(sessions: seq<Session>, wanted: set<Status>): (n: nat)
    ensures n <= |sessions|
    ensures |sessions| == 0 || wanted == {} ==> n == 0
    ensures |sessions| == 1 ==> n == if sessions[0].status in wanted then 1 else 0
    decreases |sessions|
  {
    if |sessions| == 0 then 0
    else (if sessions[0].status in wanted then 1 else 0) + CountIn(sessions[1..], wanted)
  }

  /** One more session adds one to the count exactly when its status is wanted; with the
      empty case this says the count is the number of wanted sessions, whatever their order. */
  lemma {:induction false} CountInSnoc(sessions: seq<Session>, x: Session, wanted: set<Status>)
    ensures CountIn(sessions + [x], wanted) == CountIn(sessions, wanted) + (if x.status in wanted then 1 else 0)
    decreases |sessions|
  {
    if |sessions| > 0 {
      assert (sessions + [x])[1..] == sessions[1..] + [x];
      CountInSnoc(sessions[1..], x, wanted);
    } else {
      assert sessions + [x] == [x];
    }
  }

  /** `getSessionStats`: `ready` counts the ready sessions, `connecting` those showing a QR code
      or still initialising, `disconnected` the disconnected ones. */
  function GetSessionStats(sessions: seq<Session>): (s: Stats)
    ensures s.total == |sessions|
    ensures s.ready == CountIn(sessions, {Ready})
    ensures s.connecting == CountIn(sessions, {Qr, Initializing})
    ensures s.disconnected == CountIn(sessions, {Disconnected})
    ensures s.ready <= s.total && s.connecting <= s.total && s.disconnected <= s.total
    ensures |sessions| == 0 ==> s == Stats(0, 0, 0, 0)
  {
    Stats(|sessions|,
          CountIn(sessions, {Ready}),
          CountIn(sessions, {Qr, Initializing}),
          CountIn(sessions, {Disconnected}))
  }

  /** Counting two disjoint status sets separately is counting their union. */
  lemma {:induction false} CountDisjoint(sessions: seq<Session>, a: set<Status>, b: set<Status>)
    requires a !! b
    ensures CountIn(sessions, a) + CountIn(sessions, b) == CountIn(sessions, a + b)
    decreases |sessions|
  {
    if |sessions| > 0 {
      CountDisjoint(sessions[1..], a, b);
    }
  }

  /** Every session has one of the five statuses. */
  lemma {:induction false} CountAll(sessions: seq<Session>)
    ensures CountIn(sessions, {Initializing, Qr, Authenticated, Ready, Disconnected}) == |sessions|
    decreases |sessions|
  {
    if |sessions| > 0 {
      CountAll(sessions[1..]);
      assert sessions[0].status in {Initializing, Qr, Authenticated, Ready, Disconnected} by {
        match sessions[0].status
        case Initializing =>
        case Qr =>
        case Authenticated =>
        case Ready =>
        case Disconnected =>
      }
    }
  }

  /** The three counters and the authenticated sessions, which none of them shows, add up to
      the total. */
  lemma StatsPartition(sessions: seq<Session>)
    ensures var s := GetSessionStats(sessions);
      s.ready + s.connecting + s.disconnected + CountIn(sessions, {Authenticated}) == s.total
  {
    CountDisjoint(sessions, {Ready}, {Qr, Initializing});
    CountDisjoint(sessions, {Ready} + {Qr, Initializing}, {Disconnected});
    CountDisjoint(sessions, {Ready} + {Qr, Initializing} + {Disconnected}, {Authenticated});
    CountAll(sessions);
    assert {Ready} + {Qr, Initializing} + {Disconnected} + {Authenticated}
        == {Initializing, Qr, Authenticated, Ready, Disconnected};
  }
}
