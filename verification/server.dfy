/**
 * The API server's chord routes and the request and registration routes that feed the
 * orchestrator. Each route is a function from the request's parameters to its reply; a route
 * that throws inside its handler is answered by the framework with status 500.
 */
module Server {
  import opened Wrappers
  import Seqs
  import Text
  import opened ChordCatalogue
  import opened Registry
  import Orchestrator
  import opened JsValues
  import Metrics

  // ---------------------------------------------------------------------------
  // GET /api/chord/:name
  // ---------------------------------------------------------------------------

  const ChordSuggestion: string := "Try: amajor, eminor, dmajor, cmajor, or gmajor"

  datatype ChordReply =
    | ChordFound(entry: Entry)
    | ChordNotFound(error: string, available: seq<string>, suggestion: string)
  {
    function Status(): int { if ChordFound? then 200 else 404 }
  }

  /**
   * The value under the normalised name, stubs included; otherwise 404 with every key of the
   * table in order.
   */
  function GetChord(t: ChordTable, name: string): (r: ChordReply)
    ensures r.ChordFound? <==> NormaliseKey(name) in Keys(t)
    ensures r.ChordFound? ==> (NormaliseKey(name), r.entry) in t
    ensures r.ChordNotFound? ==> r.available == Keys(t) && r.suggestion == ChordSuggestion
  {
    match Lookup(t, NormaliseKey(name))
    case Some(e) => ChordFound(e)
    case None => ChordNotFound("Chord not found", Keys(t), ChordSuggestion)
  }

  /** Names differing only in case and whitespace reach the same reply. */
  lemma GetChordIgnoresCaseAndSpace(t: ChordTable, a: string, b: string)
    requires NormaliseKey(a) == NormaliseKey(b)
    ensures GetChord(t, a) == GetChord(t, b)
  {
  }

  /** Every key of a table without repeated keys is served with exactly its value. */
  lemma GetChordServesEveryKey(t: ChordTable, i: int)
    requires DistinctKeys(t) && 0 <= i < |t|
    requires NormaliseKey(t[i].0) == t[i].0
    ensures GetChord(t, t[i].0) == ChordFound(t[i].1)
  {
    LookupDistinct(t, i);
  }

  // ---------------------------------------------------------------------------
  // GET /api/chords?difficulty=
  // ---------------------------------------------------------------------------

  datatype ChordList = ChordList(total: nat, chords: seq<Entry>)

  /** The entry has exactly difficulty `d` (a stub has none, so never matches). */
  function HasDifficulty(d: string): Entry -> bool {
    (e: Entry) => e.Difficulty() == Some(d)
  }

  /**
   * Every value in table order; a non-empty `difficulty` keeps only the values with exactly
   * that difficulty. `total` is the number of values returned.
   */
  function ListChords(t: ChordTable, difficulty: Option<string>): (r: ChordList)
    ensures r.total == |r.chords|
    ensures !Truthy(difficulty) ==> r.chords == Values(t)
    ensures Truthy(difficulty) ==>
      && (forall k :: 0 <= k < |r.chords| ==> r.chords[k].Full? && r.chords[k].chord.difficulty == difficulty.value)
      && (forall i :: 0 <= i < |t| && t[i].1.Difficulty() == difficulty ==> t[i].1 in r.chords)
      && Seqs.IsSubsequence(r.chords, Values(t))
  {
    var chords := if Truthy(difficulty) then Seqs.Filter(HasDifficulty(difficulty.value), Values(t)) else Values(t);
    ChordList(|chords|, chords)
  }

  /** The lists for two different difficulties share no value. */
  lemma DifficultyListsDisjoint(t: ChordTable, d1: string, d2: string)
    requires d1 != "" && d2 != "" && d1 != d2
    ensures var (a, b) := (ListChords(t, Some(d1)).chords, ListChords(t, Some(d2)).chords);
      forall j, k :: 0 <= j < |a| && 0 <= k < |b| ==> a[j] != b[k]
  {
  }

  // ---------------------------------------------------------------------------
  // GET /api/chords/search?q=
  // ---------------------------------------------------------------------------

  datatype SearchReply =
    | SearchResults(query: string, found: nat, results: seq<Entry>)
    | SearchMissingQuery
    | SearchCrashed

  /** A full record whose name or display name contains `query` once lower-cased. */
  predicate Matches(c: ChordRecord, query: string) {
    Text.Contains(Text.ToLower(c.name), query) || Text.Contains(Text.ToLower(c.displayName), query)
  }

  /**
   * The filter over the table's values in order: a full record is kept when it matches; the
   * first stub reached throws, since a stub has no `name` to lower-case.
   */
  function SearchValues(vs: seq<Entry>, query: string): (r: Option<seq<Entry>>)
    ensures r.None? <==> exists k :: 0 <= k < |vs| && vs[k].Redirect?
    ensures r.Some? ==>
      && (forall k :: 0 <= k < |r.value| ==> r.value[k].Full? && Matches(r.value[k].chord, query))
      && (forall k :: 0 <= k < |vs| && vs[k].Full? && Matches(vs[k].chord, query) ==> vs[k] in r.value)
      && Seqs.IsSubsequence(r.value, vs)
    decreases |vs|
  {
    if |vs| == 0 then Some([])
    else if vs[0].Redirect? then None
    else
      var rest := SearchValues(vs[1..], query);
      if rest.None? then
        assert exists k :: 0 <= k < |vs[1..]| && vs[1..][k].Redirect?;
        None
      else if Matches(vs[0].chord, query) then
        assert ([vs[0]] + rest.value)[1..] == rest.value;
        Some([vs[0]] + rest.value)
      else
        assert forall k :: 1 <= k < |vs| ==> vs[k] == vs[1..][k - 1];
        rest
  }

  /**
   * The search route: the query lower-cased; an absent or empty query is a 400; otherwise
   * the matching records, or a crash (500) as soon as the table holds a stub.
   */
  function SearchChords(t: ChordTable, q: Option<string>): (r: SearchReply)
    ensures !Truthy(q) <==> r.SearchMissingQuery?
    ensures r.SearchCrashed? <==> Truthy(q) && exists i :: 0 <= i < |t| && t[i].1.Redirect?
    ensures r.SearchResults? ==> r.query == Text.ToLower(q.value) && r.found == |r.results|
  {
    var query := if q.Some? then Text.ToLower(q.value) else "";
    if query == "" then SearchMissingQuery
    else
      match SearchValues(Values(t), query)
      case None =>
        assert exists i :: 0 <= i < |t| && t[i].1.Redirect?;
        SearchCrashed
      case Some(results) => SearchResults(query, |results|, results)
  }

  /** On the reference table, whose second value is a stub, every non-empty search crashes. */
  lemma SearchOnTableCrashes(q: string)
    requires q != ""
    ensures SearchChords(Table, Some(q)) == SearchCrashed
  {
    assert Table[1].1.Redirect?;
  }

  // ---------------------------------------------------------------------------
  // GET /api/progression/:key
  // ---------------------------------------------------------------------------

  /** The progression table: four long chord names for each of five keys. */
  function Progressions(key: string): (r: Option<seq<string>>)
    ensures r.Some? ==> |r.value| == 4
    ensures r.Some? <==> key in ["C", "G", "D", "A", "E"]
  {
    if key == "C" then Some(["cmajor", "aminor", "fmajor", "gmajor"])
    else if key == "G" then Some(["gmajor", "eminor", "cmajor", "dmajor"])
    else if key == "D" then Some(["dmajor", "bminor", "gmajor", "amajor"])
    else if key == "A" then Some(["amajor", "fsharpminor", "dmajor", "emajor"])
    else if key == "E" then Some(["emajor", "csharpminor", "amajor", "bmajor"])
    else None
  }

  datatype ProgressionReply = ProgressionReply(key: string, progression: seq<Entry>, available: bool)

  /** The names the table has, in the order given. */
  function PresentNames(t: ChordTable, names: seq<string>): seq<string> {
    Seqs.Filter(n => n in Keys(t), names)
  }

  /** The values under `names` that the table has, in the order of `names`; missing names are dropped. */
  function LookupPresent(t: ChordTable, names: seq<string>): (r: seq<Entry>)
    ensures |r| <= |names|
    ensures forall k :: 0 <= k < |r| ==> exists j :: 0 <= j < |names| && (names[j], r[k]) in t
    ensures (forall j :: 0 <= j < |names| ==> names[j] in Keys(t)) ==> |r| == |names|
    ensures |r| == |PresentNames(t, names)|
    ensures forall k :: 0 <= k < |r| ==> Lookup(t, PresentNames(t, names)[k]) == Some(r[k])
    decreases |names|
  {
    if |names| == 0 then []
    else
      var rest := LookupPresent(t, names[1..]);
      var r := if names[0] in Keys(t) then [Lookup(t, names[0]).value] + rest else rest;
      LookupPresentStep(t, names, rest);
      PresentNamesCons(t, names);
      EntriesOfPresentNames(t, names, r);
      r
  }

  /** One step of the lookup: the first name's entry, if the table has it, goes before the rest's. */
  lemma LookupPresentStep(t: ChordTable, names: seq<string>, rest: seq<Entry>)
    requires |names| > 0
    requires |rest| == |PresentNames(t, names[1..])|
    requires forall k :: 0 <= k < |rest| ==> Lookup(t, PresentNames(t, names[1..])[k]) == Some(rest[k])
    ensures var r := if names[0] in Keys(t) then [Lookup(t, names[0]).value] + rest else rest;
      && |r| == |PresentNames(t, names)|
      && forall k :: 0 <= k < |r| ==> Lookup(t, PresentNames(t, names)[k]) == Some(r[k])
  {
    PresentNamesCons(t, names);
    if names[0] in Keys(t) {
      var r := [Lookup(t, names[0]).value] + rest;
      var ps := PresentNames(t, names);
      assert ps == [names[0]] + PresentNames(t, names[1..]);
      forall k | 0 <= k < |r| ensures Lookup(t, ps[k]) == Some(r[k]) {
        if k > 0 {
          assert r[k] == rest[k - 1] && ps[k] == PresentNames(t, names[1..])[k - 1];
        }
      }
    }
  }

  /** The present names of a non-empty list: the first name if the table has it, then the rest's. */
  lemma PresentNamesCons(t: ChordTable, names: seq<string>)
    requires |names| > 0
    ensures PresentNames(t, names) ==
      (if names[0] in Keys(t) then [names[0]] + PresentNames(t, names[1..]) else PresentNames(t, names[1..]))
    ensures (forall j :: 0 <= j < |names| ==> names[j] in Keys(t)) ==> PresentNames(t, names) == names
  {
    if forall j :: 0 <= j < |names| ==> names[j] in Keys(t) {
      Seqs.FilterKeepsAll(n => n in Keys(t), names);
    }
  }

  /** Entries found under the present names come from the table under one of the given names. */
  lemma EntriesOfPresentNames(t: ChordTable, names: seq<string>, r: seq<Entry>)
    requires |r| == |PresentNames(t, names)|
    requires forall k :: 0 <= k < |r| ==> Lookup(t, PresentNames(t, names)[k]) == Some(r[k])
    ensures forall k :: 0 <= k < |r| ==> exists j :: 0 <= j < |names| && (names[j], r[k]) in t
  {
    var ps := PresentNames(t, names);
    forall k | 0 <= k < |r| ensures exists j :: 0 <= j < |names| && (names[j], r[k]) in t {
      assert ps[k] in names;
      assert (ps[k], r[k]) in t;
    }
  }

  /** Looking up a concatenation of name lists concatenates the results: order is kept. */
  lemma {:induction false} LookupPresentAppend(t: ChordTable, a: seq<string>, b: seq<string>)
    ensures LookupPresent(t, a + b) == LookupPresent(t, a) + LookupPresent(t, b)
    decreases |a|
  {
    if |a| > 0 {
      assert (a + b)[0] == a[0];
      assert (a + b)[1..] == a[1..] + b;
      LookupPresentAppend(t, a[1..], b);
    } else {
      assert a + b == b;
    }
  }

  /** A name the table lacks contributes nothing: dropping it gives the same entries. */
  lemma AbsentNameIsDropped(t: ChordTable, names: seq<string>, j: int)
    requires 0 <= j < |names| && names[j] !in Keys(t)
    ensures LookupPresent(t, names) == LookupPresent(t, names[..j] + names[j + 1..])
  {
    assert names == names[..j] + ([names[j]] + names[j + 1..]);
    LookupPresentAppend(t, names[..j], [names[j]] + names[j + 1..]);
    LookupPresentAppend(t, [names[j]], names[j + 1..]);
    LookupPresentAppend(t, names[..j], names[j + 1..]);
    assert LookupPresent(t, [names[j]]) == [];
  }

  /**
   * The progression for the upper-cased key, or G's when the key is unknown, as the table's
   * values under those names; it is available when at least one was found.
   */
  function GetProgression(t: ChordTable, key: string): (r: ProgressionReply)
    ensures r.key == Text.ToUpper(key)
    ensures |r.progression| <= 4
    ensures r.available <==> |r.progression| > 0
    ensures Progressions(r.key).Some? ==> r.progression == LookupPresent(t, Progressions(r.key).value)
    ensures Progressions(r.key).None? ==> r.progression == LookupPresent(t, Progressions("G").value)
  {
    var k := Text.ToUpper(key);
    var names := Progressions(k).GetOr(["gmajor", "eminor", "cmajor", "dmajor"]);
    var chords := LookupPresent(t, names);
    ProgressionReply(k, chords, |chords| > 0)
  }

  /** Upper-casing makes the route case-insensitive in its key. */
  lemma ProgressionIgnoresCase(t: ChordTable, a: string, b: string)
    requires Text.ToUpper(a) == Text.ToUpper(b)
    ensures GetProgression(t, a) == GetProgression(t, b)
  {
  }

  /** An unknown key falls back to the progression of G, reported under the key asked for. */
  lemma UnknownKeyFallsBackToG(t: ChordTable, key: string)
    requires Progressions(Text.ToUpper(key)).None?
    ensures GetProgression(t, key).progression == GetProgression(t, "G").progression
  {
    assert Text.ToUpper("G") == "G";
  }

  /** Every name any progression lists. */
  const LongNames: set<string> := {
    "cmajor", "aminor", "fmajor", "gmajor", "eminor", "dmajor", "bminor", "amajor",
    "fsharpminor", "emajor", "csharpminor", "bmajor"}

  lemma ProgressionNamesAreLong(key: string)
    ensures var names := Progressions(Text.ToUpper(key)).GetOr(["gmajor", "eminor", "cmajor", "dmajor"]);
      forall j :: 0 <= j < |names| ==> names[j] in LongNames
  {
  }

  /** The table holds nothing but stubs under the long names. */
  predicate LongNamesAreStubs(t: ChordTable) {
    forall i :: 0 <= i < |t| && t[i].0 in LongNames ==> t[i].1.Redirect?
  }

  /**
   * In a table that keeps only stubs under the long names, every progression consists of
   * stubs, which carry no positions to draw.
   */
  lemma ProgressionsAreStubs(t: ChordTable, key: string)
    requires LongNamesAreStubs(t)
    ensures forall k :: 0 <= k < |GetProgression(t, key).progression| ==> GetProgression(t, key).progression[k].Redirect?
  {
    ProgressionNamesAreLong(key);
  }

  /** A progression whose first name the table has is available. */
  lemma FirstNamePresentMeansAvailable(t: ChordTable, names: seq<string>)
    requires |names| > 0 && names[0] in Keys(t)
    ensures |LookupPresent(t, names)| > 0
  {
  }

  lemma StubsAppend(a: ChordTable, b: ChordTable)
    requires LongNamesAreStubs(a) && LongNamesAreStubs(b)
    ensures LongNamesAreStubs(a + b)
  {
    assert forall i :: |a| <= i < |a + b| ==> (a + b)[i] == b[i - |a|];
  }

  lemma MajorLongNamesAreStubs()
    ensures LongNamesAreStubs(MajorPart)
  {
  }

  lemma MinorLongNamesAreStubs()
    ensures LongNamesAreStubs(MinorPart)
  {
  }

  lemma ExtendedHasNoLongNames()
    ensures LongNamesAreStubs(ExtendedPart)
  {
  }

  lemma TableLongNamesAreStubs()
    ensures LongNamesAreStubs(Table)
  {
    MajorLongNamesAreStubs();
    MinorLongNamesAreStubs();
    ExtendedHasNoLongNames();
    StubsAppend(MajorPart, MinorPart);
    StubsAppend(MajorPart + MinorPart, ExtendedPart);
  }

  /**
   * On the reference table every progression route answers `available: true`, and every
   * chord in it is a stub.
   */
  lemma TableProgressionsAreAvailableStubs(key: string)
    ensures GetProgression(Table, key).available
    ensures forall k :: 0 <= k < |GetProgression(Table, key).progression| ==> GetProgression(Table, key).progression[k].Redirect?
  {
    TableLongNamesAreStubs();
    ProgressionsAreStubs(Table, key);
    var names := Progressions(Text.ToUpper(key)).GetOr(["gmajor", "eminor", "cmajor", "dmajor"]);
    assert names[0] in {"cmajor", "gmajor", "dmajor", "amajor", "emajor"};
    assert Table[1].0 == "amajor" && Table[3].0 == "cmajor" && Table[5].0 == "dmajor";
    assert Table[7].0 == "emajor" && Table[9].0 == "gmajor";
    FirstNamePresentMeansAvailable(Table, names);
  }

  // ---------------------------------------------------------------------------
  // POST /api/process-request
  // ---------------------------------------------------------------------------

  /** The JSON body's fields; an absent field is `None`. */
  datatype ProcessBody = ProcessBody(
    question: Option<string>,
    imageData: Option<string>,
    userId: Option<string>,
    sessionId: Option<string>)

  datatype ProcessReply =
    | ProcessMissingFields(error: string)
    | ProcessAnswered(reply: Orchestrator.Reply)
  {
    function Status(): int { if ProcessMissingFields? then 400 else 200 }
  }

  /** The orchestrator request a well-formed body makes, with the session id defaulted. */
  function RequestOf(body: ProcessBody, now: nat): (req: Orchestrator.Request)
    requires Truthy(body.question) && Truthy(body.userId)
    ensures req.question == body.question.value && req.imageData == body.imageData
    ensures req.userId == body.userId.value && req.sessionId == SessionOr(body.sessionId, now)
  {
    Orchestrator.Request(body.question.value, body.imageData, body.userId.value, SessionOr(body.sessionId, now))
  }

  /**
   * The orchestrated request route: a missing or empty question or user id is a 400 and does
   * not touch the orchestrator; otherwise the orchestrator runs the request, with the session
   * id defaulted, and its reply, whatever it is, goes out with 200. The third component is the
   * socket events the request emitted.
   */
  function ProcessRequestRoute(o: Orchestrator.Orchestrator, body: ProcessBody, env: Orchestrator.Environment, now: nat)
    : (r: (Orchestrator.Orchestrator, ProcessReply, seq<Orchestrator.Broadcast>))
    ensures !Truthy(body.question) || !Truthy(body.userId) ==>
      r.0 == o && r.1.ProcessMissingFields? && r.2 == []
    ensures Truthy(body.question) && Truthy(body.userId) ==>
      && r.1.ProcessAnswered?
      && r.0.metrics.totalRequests == o.metrics.totalRequests + 1
      && var step := Orchestrator.ProcessUserRequest(o, RequestOf(body, now), env);
         r == (step.state, ProcessAnswered(step.reply), step.broadcasts)
  {
    if !Truthy(body.question) || !Truthy(body.userId) then
      (o, ProcessMissingFields("Missing required fields: question and userId"), [])
    else
      var step := Orchestrator.ProcessUserRequest(o, RequestOf(body, now), env);
      (step.state, ProcessAnswered(step.reply), step.broadcasts)
  }

  /** Every route call keeps the counters balanced: a rejected body counts nothing. */
  lemma RouteKeepsMetricsBalanced(o: Orchestrator.Orchestrator, body: ProcessBody, env: Orchestrator.Environment, now: nat)
    requires Metrics.Balanced(o.metrics)
    ensures Metrics.Balanced(ProcessRequestRoute(o, body, env, now).0.metrics)
  {
    if Truthy(body.question) && Truthy(body.userId) {
      Orchestrator.RequestKeepsMetricsBalanced(o, RequestOf(body, now), env);
    }
  }

  /**
   * The chord highlight of an answered request carries the body's session id when one was
   * sent, and otherwise `session_` followed by the clock.
   */
  lemma HighlightCarriesSession(o: Orchestrator.Orchestrator, body: ProcessBody, env: Orchestrator.Environment, now: nat)
    ensures var events := ProcessRequestRoute(o, body, env, now).2;
      |events| == 2 ==>
        && events[1].ChordHighlight?
        && (Truthy(body.sessionId) ==> events[1].sessionId == body.sessionId.value)
        && (!Truthy(body.sessionId) ==>
              && |events[1].sessionId| > 8
              && events[1].sessionId[..8] == "session_"
              && Text.IsCanonicalDecimal(events[1].sessionId[8..])
              && Text.ParseDecimal(events[1].sessionId[8..]) == now)
  {
    if Truthy(body.question) && Truthy(body.userId) {
      var step := Orchestrator.ProcessUserRequest(o, RequestOf(body, now), env);
      if |step.broadcasts| == 2 {
        assert step.reply.Completed?;
      }
    }
  }

  // ---------------------------------------------------------------------------
  // POST /api/service/register
  // ---------------------------------------------------------------------------

  datatype RegisterBody = RegisterBody(
    serviceName: Option<string>,
    serviceUrl: Option<string>,
    capabilities: Option<seq<string>>)

  datatype RegisterReply =
    | Registered(message: string, timestamp: int)
    | RegisterMissingFields(error: string)
  {
    function Status(): int { if Registered? then 200 else 400 }
  }

  /**
   * The registration route: both name and URL are required; the registry then merges the URL
   * and the capabilities (an empty list when none were sent). The reply claims success even
   * for a name the registry does not hold, where nothing changes.
   */
  function RegisterRoute(s: Services, body: RegisterBody, now: int): (r: (Services, RegisterReply))
    ensures !Truthy(body.serviceName) || !Truthy(body.serviceUrl) ==>
      r.0 == s && r.1.RegisterMissingFields?
    ensures Truthy(body.serviceName) && Truthy(body.serviceUrl) ==>
      && r.1.Registered?
      && r.1.message == body.serviceName.value + " successfully registered"
      && (KeyOf(body.serviceName.value).None? ==> r.0 == s)
      && (KeyOf(body.serviceName.value).Some? ==>
            var d := r.0.Get(KeyOf(body.serviceName.value).value);
            d.url == body.serviceUrl.value
            && d.capabilities == body.capabilities.GetOr([])
            && d.registeredAt == Some(now))
    ensures Truthy(body.serviceName) && Truthy(body.serviceUrl) ==>
      r.0 == RegisterService(s, body.serviceName.value,
                             ServicePatch(None, Some(body.serviceUrl.value), Some(body.capabilities.GetOr([]))), now)
  {
    if !Truthy(body.serviceName) || !Truthy(body.serviceUrl) then
      (s, RegisterMissingFields("serviceName and serviceUrl are required"))
    else
      var patch := ServicePatch(None, Some(body.serviceUrl.value), Some(body.capabilities.GetOr([])));
      (RegisterService(s, body.serviceName.value, patch, now),
       Registered(body.serviceName.value + " successfully registered", now))
  }

  /** The registration route changes no service's health or retry state. */
  lemma RegisterRouteKeepsHealth(s: Services, body: RegisterBody, now: int)
    ensures var r := RegisterRoute(s, body, now).0;
      && OverallStatus(r) == OverallStatus(s)
      && forall id :: r.Get(id).status == s.Get(id).status && r.Get(id).retryCount == s.Get(id).retryCount
  {
    if Truthy(body.serviceName) && Truthy(body.serviceUrl) {
      var patch := ServicePatch(None, Some(body.serviceUrl.value), Some(body.capabilities.GetOr([])));
      RegistrationKeepsHealth(s, body.serviceName.value, patch, now);
    }
  }

  /** Sending the same registration twice at the same instant leaves the registry as after once. */
  lemma RegisterRouteIdempotent(s: Services, body: RegisterBody, now: int)
    ensures var once := RegisterRoute(s, body, now);
      RegisterRoute(once.0, body, now) == (once.0, once.1)
  {
    if Truthy(body.serviceName) && Truthy(body.serviceUrl) {
      var patch := ServicePatch(None, Some(body.serviceUrl.value), Some(body.capabilities.GetOr([])));
      RegisterIdempotent(s, body.serviceName.value, patch, now);
    }
  }
}
