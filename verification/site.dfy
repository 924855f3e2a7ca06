/**
 * Behaviour every public page shares: the visit counter with its bounded log
 * of page views, and the basic required-field check every form gets on submit.
 */
module Site {
  import opened Values
  import opened Text
  import opened Records

  /** The log of page views keeps at most this many entries. */
  const MaxSessions: nat := 1000

  /** A logged user agent is cut to this many characters. */
  const MaxUserAgent: nat := 100

  /** `s.substring(0, n)`: the first `n` characters, or all of `s` when it is shorter. */
  function Prefix(s: string, n: nat): (r: string)
    ensures |r| == if |s| <= n then |s| else n
    ensures r == s[..|r|]
  {
    if |s| <= n then s else s[..n]
  }

  /** The log entry of one page view. */
  function Entry(page: string, timestamp: string, userAgent: string): SessionEntry
  {
    SessionEntry(page, timestamp, Prefix(userAgent, MaxUserAgent))
  }

  /**
   * `trackPageVisit`: today's count and the total go up by one, the view is
   * appended to the log, and when the log then holds more than 1000 entries
   * only the newest 1000 are kept. The count of quote requests is untouched.
   */
  method TrackPageVisit(store: LocalStore, today: string, page: string, timestamp: string, userAgent: string)
    modifies store
    ensures store.visitorData.totalVisits == old(store.visitorData.totalVisits) + 1
    ensures store.visitorData.dailyVisits == CountVisit(old(store.visitorData.dailyVisits), today)
    ensures store.visitorData.sessionData
            == Last(old(store.visitorData.sessionData) + [Entry(page, timestamp, userAgent)], MaxSessions)
    ensures |store.visitorData.sessionData| <= MaxSessions
    ensures store.visitorData.sessionData[|store.visitorData.sessionData| - 1] == Entry(page, timestamp, userAgent)
    ensures store.visitorData.quoteRequests == old(store.visitorData.quoteRequests)
    ensures store.quoteRequests == old(store.quoteRequests) && store.contactSubmissions == old(store.contactSubmissions)
  {
    var data := store.visitorData;
    var daily := CountVisit(data.dailyVisits, today);
    var sessions := data.sessionData + [Entry(page, timestamp, userAgent)];
    if |sessions| > MaxSessions {
      sessions := sessions[|sessions| - MaxSessions..];
    }
    store.visitorData := VisitorData(data.totalVisits + 1, daily, sessions, data.quoteRequests);
  }

  /** Cutting a list to its newest `n` elements early loses nothing a single cut at the end would keep. */
  lemma {:induction false} LastOfLast<T>(s: seq<T>, t: seq<T>, n: nat)
    ensures Last(Last(s, n) + t, n) == Last(s + t, n)
  {
    if |s| > n {
      var u := s[|s| - n..] + t;
      assert Last(s, n) == s[|s| - n..];
      assert Last(u, n) == u[|t|..];
      assert Last(s + t, n) == (s + t)[|s| + |t| - n..];
      forall k | 0 <= k < n
        ensures u[|t|..][k] == (s + t)[|s| + |t| - n..][k]
      {
        if k < n - |t| {
          assert u[|t| + k] == s[|s| - n + |t| + k];
        } else {
          assert u[|t| + k] == t[|t| + k - n];
        }
      }
    }
  }

  /** The log after a series of page views, each cut to the newest 1000 as it is made. */
  function Replay(log: seq<SessionEntry>, views: seq<SessionEntry>): seq<SessionEntry>
    decreases |views|
  {
    if views == [] then log else Replay(Last(log + [views[0]], MaxSessions), views[1..])
  }

  /** However many views are made one by one, the log is the newest 1000 entries of the whole history, in order. */
  lemma {:induction false} ReplayKeepsNewest(log: seq<SessionEntry>, views: seq<SessionEntry>)
    requires |log| <= MaxSessions
    ensures Replay(log, views) == Last(log + views, MaxSessions)
    ensures |Replay(log, views)| <= MaxSessions
    decreases |views|
  {
    if views == [] {
      assert log + views == log;
    } else {
      ReplayKeepsNewest(Last(log + [views[0]], MaxSessions), views[1..]);
      LastOfLast(log + [views[0]], views[1..], MaxSessions);
      assert log + [views[0]] + views[1..] == log + views;
    }
  }

  /**
   * The submit check of every form: each required field whose value trims to
   * nothing is flagged, and the form passes only when no field is flagged.
   */
  method CheckRequiredFields(values: seq<string>) returns (isValid: bool, flagged: seq<bool>)
    ensures |flagged| == |values|
    ensures forall k :: 0 <= k < |values| ==> (flagged[k] <==> Blank(values[k]))
    ensures isValid <==> forall k :: 0 <= k < |values| ==> !Blank(values[k])
  {
    isValid := true;
    flagged := [];
    var i := 0;
    while i < |values|
      invariant 0 <= i <= |values|
      invariant |flagged| == i
      invariant forall k :: 0 <= k < i ==> (flagged[k] <==> Blank(values[k]))
      invariant isValid <==> forall k :: 0 <= k < i ==> !Blank(values[k])
    {
      var empty := Trim(values[i]) == "";
      if empty {
        isValid := false;
      }
      flagged := flagged + [empty];
      i := i + 1;
    }
  }
}
