/** The IP-to-domain cache that lets domain rules apply to connections that only show an IP. All domains
    of an IP share one expiry, which every new resolution pushes out. Times are in the ttl's unit. */
module DomainCache {
  import opened Basics
  import opened Text

  type Ip = bytes

  datatype Entry = Entry(domains: seq<string>, expiresAt: nat)

  type Entries = map<Ip, Entry>

  /** Text-to-address parsing. */
  type IpParser = string -> Option<Ip>

  // ----- One resolution, one lookup -----

  function WithDomain(domains: seq<string>, domain: string): seq<string> {
    if domain in domains then domains else domains + [domain]
  }

  function RecordIp(entries: Entries, ip: Ip, domain: string, ttl: nat, now: nat): Entries {
    if ip in entries then
      var kept := if entries[ip].expiresAt <= now then [] else entries[ip].domains;
      entries[ip := Entry(WithDomain(kept, domain), now + ttl)]
    else entries[ip := Entry([domain], now + ttl)]
  }

  function RecordAnswers(parse: IpParser, entries: Entries, answers: seq<string>, domain: string, ttl: nat, now: nat): Entries {
    if answers == [] then entries
    else
      var before := RecordAnswers(parse, entries, answers[..|answers| - 1], domain, ttl, now);
      match parse(answers[|answers| - 1])
      case Some(ip) => RecordIp(before, ip, domain, ttl, now)
      case None => before
  }

  function Record(parse: IpParser, entries: Entries, query: string, answers: seq<string>, ttl: nat, now: nat): Entries {
    var domain := NormalizeDomain(query);
    if domain == "" then entries else RecordAnswers(parse, entries, answers, domain, ttl, now)
  }

  /** The domains a lookup may choose from. */
  function Visible(entries: Entries, ip: Ip, now: nat): seq<string> {
    if ip in entries && entries[ip].expiresAt > now then entries[ip].domains else []
  }

  /** What a lookup leaves behind. */
  function Forget(entries: Entries, ip: Ip, now: nat): Entries {
    if ip in entries && entries[ip].expiresAt <= now then entries - {ip} else entries
  }

  /** `found` is the first of the domains that is wanted, if any is. */
  ghost predicate IsFirst(domains: seq<string>, wanted: string -> bool, found: Option<string>) {
    match found
    case None => forall i :: 0 <= i < |domains| ==> !wanted(domains[i])
    case Some(d) =>
      wanted(d) && exists i :: 0 <= i < |domains| && domains[i] == d && forall j :: 0 <= j < i ==> !wanted(domains[j])
  }

  class DirectDomainCache {
    const ttl: nat
    const parse: IpParser
    var ipToDomains: Entries

    constructor (ttl: nat, parse: IpParser)
      ensures this.ttl == ttl && this.parse == parse && ipToDomains == map[]
    {
      this.ttl, this.parse, ipToDomains := ttl, parse, map[];
    }

    method RecordResolution(query: string, answers: seq<string>, now: nat)
      modifies this
      ensures ipToDomains == Record(parse, old(ipToDomains), query, answers, ttl, now)
    {
      var domain := NormalizeDomain(query);
      if domain == "" {
        return;
      }
      var expiresAt := now + ttl;
      for i := 0 to |answers|
        invariant ipToDomains == RecordAnswers(parse, old(ipToDomains), answers[..i], domain, ttl, now)
      {
        assert answers[..i + 1][..i] == answers[..i];
        var ip := parse(answers[i]);
        if ip.Some? {
          if ip.value in ipToDomains {
            var entry := ipToDomains[ip.value];
            if entry.expiresAt <= now {
              entry := entry.(domains := []);
            }
            if domain !in entry.domains {
              entry := entry.(domains := entry.domains + [domain]);
            }
            ipToDomains := ipToDomains[ip.value := entry.(expiresAt := expiresAt)];
          } else {
            ipToDomains := ipToDomains[ip.value := Entry([domain], expiresAt)];
          }
        }
      }
      assert answers[..|answers|] == answers;
    }

    /** The first visible domain that satisfies the predicate; an expired entry is removed on the way. */
    method MatchingDomainForIp(ip: Ip, wanted: string -> bool, now: nat) returns (found: Option<string>)
      modifies this
      ensures ipToDomains == Forget(old(ipToDomains), ip, now)
      ensures IsFirst(Visible(old(ipToDomains), ip, now), wanted, found)
    {
      if ip !in ipToDomains {
        return None;
      }
      if ipToDomains[ip].expiresAt <= now {
        ipToDomains := ipToDomains - {ip};
        return None;
      }
      var domains := ipToDomains[ip].domains;
      for i := 0 to |domains|
        invariant forall j :: 0 <= j < i ==> !wanted(domains[j])
      {
        if wanted(domains[i]) {
          return Some(domains[i]);
        }
      }
      return None;
    }
  }

  // ----- The history that the cache stands for -----

  datatype Event =
    | Resolve(query: string, answers: seq<string>, now: nat)
    | Look(ip: Ip, now: nat)

  /** One recording of a domain for some IP. */
  datatype Recording = Recording(domain: string, at: nat)

  function AnswerRecordings(parse: IpParser, answers: seq<string>, domain: string, now: nat, ip: Ip): seq<Recording> {
    if answers == [] then []
    else
      AnswerRecordings(parse, answers[..|answers| - 1], domain, now, ip)
      + (if parse(answers[|answers| - 1]) == Some(ip) then [Recording(domain, now)] else [])
  }

  /** Everything ever recorded for an IP, in order; empty domains are never recorded. */
  function Recordings(parse: IpParser, events: Trace<Event>, ip: Ip): seq<Recording> {
    match events
    case Start => []
    case Then(front, Look(_, _)) => Recordings(parse, front, ip)
    case Then(front, Resolve(query, answers, now)) =>
      Recordings(parse, front, ip)
      + (if NormalizeDomain(query) == "" then [] else AnswerRecordings(parse, answers, NormalizeDomain(query), now, ip))
  }

  predicate Close(recs: seq<Recording>, j: nat, ttl: nat)
    requires j + 1 < |recs|
  {
    recs[j + 1].at < recs[j].at + ttl
  }

  /** From recording `i` on, each recording came less than a ttl after the one before. */
  ghost predicate Unbroken(recs: seq<Recording>, i: nat, ttl: nat) {
    forall j: nat :: i <= j && j + 1 < |recs| ==> Close(recs, j, ttl)
  }

  /** `domain` was recorded, and no gap of a full ttl has opened since. */
  ghost predicate StillKnown(recs: seq<Recording>, domain: string, ttl: nat) {
    exists i: nat :: i < |recs| && recs[i].domain == domain && Unbroken(recs, i, ttl)
  }

  ghost predicate Known(recs: seq<Recording>, domain: string, ttl: nat, t: nat) {
    recs != [] && t < recs[|recs| - 1].at + ttl && StillKnown(recs, domain, ttl)
  }

  function Clock(events: Trace<Event>): nat {
    match events case Start => 0 case Then(_, last) => last.now
  }

  predicate Timed(events: Trace<Event>) {
    match events case Start => true case Then(front, last) => Timed(front) && Clock(front) <= last.now
  }

  function Replay(parse: IpParser, events: Trace<Event>, ttl: nat): Entries {
    match events
    case Start => map[]
    case Then(front, Resolve(query, answers, now)) => Record(parse, Replay(parse, front, ttl), query, answers, ttl, now)
    case Then(front, Look(ip, now)) => Forget(Replay(parse, front, ttl), ip, now)
  }

  ghost predicate NoDuplicates(domains: seq<string>) {
    forall i, j :: 0 <= i < j < |domains| ==> domains[i] != domains[j]
  }

  /** What the cache holds for one IP, against all its recordings, once the clock shows `now`. */
  ghost predicate Follows(entries: Entries, ip: Ip, recs: seq<Recording>, ttl: nat, now: nat) {
    && (recs != [] ==> recs[|recs| - 1].at <= now)
    && if ip in entries then
         && recs != [] && entries[ip].expiresAt == recs[|recs| - 1].at + ttl
         && NoDuplicates(entries[ip].domains)
         && forall d :: d in entries[ip].domains <==> StillKnown(recs, d, ttl)
       else recs == [] || recs[|recs| - 1].at + ttl <= now
  }

  lemma UnbrokenGrows(recs: seq<Recording>, r: Recording, i: nat, ttl: nat)
    requires i < |recs|
    ensures Unbroken(recs + [r], i, ttl) <==> Unbroken(recs, i, ttl) && r.at < recs[|recs| - 1].at + ttl
  {
    var more := recs + [r];
    assert forall j: nat :: j + 1 < |recs| ==> Close(more, j, ttl) == Close(recs, j, ttl);
    assert Close(more, |recs| - 1, ttl) <==> r.at < recs[|recs| - 1].at + ttl;
  }

  /** One more recording: the earlier domains stay known exactly if it came in time. */
  lemma KnownGrows(recs: seq<Recording>, r: Recording, d: string, ttl: nat)
    ensures StillKnown(recs + [r], d, ttl) <==>
            d == r.domain || (recs != [] && r.at < recs[|recs| - 1].at + ttl && StillKnown(recs, d, ttl))
  {
    var more := recs + [r];
    assert Unbroken(more, |recs|, ttl);
    if d == r.domain {
      assert more[|recs|].domain == d;
    }
    if i: nat :| i < |more| && more[i].domain == d && Unbroken(more, i, ttl) {
      if i < |recs| { UnbrokenGrows(recs, r, i, ttl); }
    }
    if recs != [] && r.at < recs[|recs| - 1].at + ttl && StillKnown(recs, d, ttl) {
      var i: nat :| i < |recs| && recs[i].domain == d && Unbroken(recs, i, ttl);
      UnbrokenGrows(recs, r, i, ttl);
      assert more[i].domain == d;
    }
  }

  lemma RecordIpFollows(entries: Entries, ip: Ip, recs: seq<Recording>, domain: string, ttl: nat, before: nat, now: nat)
    requires Follows(entries, ip, recs, ttl, before) && before <= now
    ensures Follows(RecordIp(entries, ip, domain, ttl, now), ip, recs + [Recording(domain, now)], ttl, now)
  {
    forall d
      ensures StillKnown(recs + [Recording(domain, now)], d, ttl) <==>
              d == domain || (recs != [] && now < recs[|recs| - 1].at + ttl && StillKnown(recs, d, ttl))
    {
      KnownGrows(recs, Recording(domain, now), d, ttl);
    }
  }

  lemma {:induction false} RecordAnswersFollows(
      parse: IpParser, entries: Entries, answers: seq<string>, domain: string, ttl: nat, before: nat, now: nat,
      ip: Ip, recs: seq<Recording>)
    requires Follows(entries, ip, recs, ttl, before) && before <= now
    ensures Follows(RecordAnswers(parse, entries, answers, domain, ttl, now), ip,
                    recs + AnswerRecordings(parse, answers, domain, now, ip), ttl, now)
  {
    if answers == [] {
      assert recs + [] == recs;
    } else {
      var front := answers[..|answers| - 1];
      RecordAnswersFollows(parse, entries, front, domain, ttl, before, now, ip, recs);
      var soFar := recs + AnswerRecordings(parse, front, domain, now, ip);
      var mid := RecordAnswers(parse, entries, front, domain, ttl, now);
      if parse(answers[|answers| - 1]) == Some(ip) {
        RecordIpFollows(mid, ip, soFar, domain, ttl, now, now);
        assert soFar + [Recording(domain, now)] == recs + AnswerRecordings(parse, answers, domain, now, ip);
      } else {
        assert soFar == recs + AnswerRecordings(parse, answers, domain, now, ip);
      }
    }
  }

  lemma {:induction false} ReplayFollows(parse: IpParser, events: Trace<Event>, ttl: nat, ip: Ip)
    requires Timed(events)
    ensures Follows(Replay(parse, events, ttl), ip, Recordings(parse, events, ip), ttl, Clock(events))
  {
    match events
    case Start =>
    case Then(front, Resolve(query, answers, now)) =>
      ReplayFollows(parse, front, ttl, ip);
      var recs := Recordings(parse, front, ip);
      if NormalizeDomain(query) == "" {
        assert recs + [] == recs;
      } else {
        RecordAnswersFollows(parse, Replay(parse, front, ttl), answers, NormalizeDomain(query), ttl, Clock(front), now, ip, recs);
      }
    case Then(front, Look(_, now)) =>
      ReplayFollows(parse, front, ttl, ip);
  }

  /** The cache is its history: after any run, at any later time, the domains visible for an IP are
      exactly those still known from the recordings, each of them once. */
  lemma CacheRefinesHistory(parse: IpParser, events: Trace<Event>, ttl: nat, ip: Ip, t: nat)
    requires Timed(events) && Clock(events) <= t
    ensures forall d :: d in Visible(Replay(parse, events, ttl), ip, t) <==>
                        Known(Recordings(parse, events, ip), d, ttl, t)
    ensures NoDuplicates(Visible(Replay(parse, events, ttl), ip, t))
  {
    ReplayFollows(parse, events, ttl, ip);
  }

  /** Deleting an expired entry during a lookup never changes what any later lookup sees. */
  lemma LookupsAreInvisible(entries: Entries, looked: Ip, at: nat, ip: Ip, t: nat)
    requires at <= t
    ensures Visible(Forget(entries, looked, at), ip, t) == Visible(entries, ip, t)
  {
  }

  // ----- The lookup's two halves, when anything comes in between -----

  lemma {:induction false} JoinedRecordings(parse: IpParser, before: Trace<Event>, between: Trace<Event>, ip: Ip)
    ensures Recordings(parse, Join(before, between), ip) == Recordings(parse, before, ip) + Recordings(parse, between, ip)
  {
    match between
    case Start =>
    case Then(front, _) =>
      JoinedRecordings(parse, before, front, ip);
  }

  lemma {:induction false} TimedPrefix(before: Trace<Event>, between: Trace<Event>)
    requires Timed(Join(before, between))
    ensures Timed(before) && Clock(before) <= Clock(Join(before, between))
  {
    match between
    case Start =>
    case Then(front, _) => TimedPrefix(before, front);
  }

  lemma VisibleIfKnown(parse: IpParser, events: Trace<Event>, ttl: nat, ip: Ip, t: nat)
    requires Timed(events) && Clock(events) <= t
    ensures var recs := Recordings(parse, events, ip);
            Visible(Replay(parse, events, ttl), ip, t) != [] <==> recs != [] && t < recs[|recs| - 1].at + ttl
  {
    CacheRefinesHistory(parse, events, ttl, ip, t);
    var recs := Recordings(parse, events, ip);
    var visible := Visible(Replay(parse, events, ttl), ip, t);
    if recs != [] && t < recs[|recs| - 1].at + ttl {
      var n: nat := |recs| - 1;
      assert Unbroken(recs, n, ttl);
      assert Known(recs, recs[n].domain, ttl, t);
    }
    if visible != [] {
      assert visible[0] in visible;
    }
  }

  /** A lookup decides that an entry has expired, and removes the entry of that IP in a second step. Whatever happens in
      between, in any number of resolutions and other lookups, the removal changes what a lookup at `t` sees if and only
      if this IP was recorded in between and its last recording is younger than the ttl. */
  lemma RemovalLosesFreshRecording(
      parse: IpParser, before: Trace<Event>, checked: nat, between: Trace<Event>, ttl: nat, ip: Ip, t: nat)
    requires Timed(Join(before, between)) && Clock(Join(before, between)) <= t && Clock(before) <= checked <= t
    requires ip in Replay(parse, before, ttl) && Replay(parse, before, ttl)[ip].expiresAt <= checked
    ensures var after, recs := Replay(parse, Join(before, between), ttl), Recordings(parse, between, ip);
            Visible(after - {ip}, ip, t) != Visible(after, ip, t) <==> recs != [] && t < recs[|recs| - 1].at + ttl
  {
    TimedPrefix(before, between);
    ReplayFollows(parse, before, ttl, ip);
    JoinedRecordings(parse, before, between, ip);
    VisibleIfKnown(parse, Join(before, between), ttl, ip, t);
  }
}
