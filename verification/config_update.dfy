/** What a configuration update does to the live steering state, as a function on
    values. The engine's update methods are proved equal to `Update`; the lemmas
    below say what `Update` means. */
module ConfigUpdate {
  import opened SteeringTypes

  /** The live configuration: service-location table, reload URL and TTL. */
  datatype State = State(locations: seq<Entry>, reloadUrl: string, ttl: int)

  const InitialState := State([], DefaultReloadUrl, DefaultTtl)

  predicate WellFormed(e: Entry) {
    e.id != "" && e.uri != ""
  }

  /** The invariant the update keeps: only checked parameters and entries are ever installed. */
  predicate ValidState(s: State) {
    && s.reloadUrl != ""
    && s.ttl > 0
    && forall i :: 0 <= i < |s.locations| ==> WellFormed(s.locations[i])
  }

  /** The message one entry is rejected with ("" when it is accepted); the id is checked first. */
  function EntryError(e: Entry): (msg: string)
    ensures msg == "" <==> WellFormed(e)
    ensures msg != "" ==> msg == (if e.id == "" then EmptyIdMsg else EmptyUriMsg)
  {
    if e.id == "" then EmptyIdMsg
    else if e.uri == "" then EmptyUriMsg
    else ""
  }

  /** The message a service-location list is rejected with: that of its first bad entry. */
  function LocationsError(ls: seq<Entry>): string
  {
    if ls == [] then ""
    else if EntryError(ls[0]) != "" then EntryError(ls[0])
    else LocationsError(ls[1..])
  }

  /** A list is accepted exactly when every entry is well formed. */
  lemma {:induction false} LocationsErrorEmptyIff(ls: seq<Entry>)
    ensures LocationsError(ls) == "" <==> forall i :: 0 <= i < |ls| ==> WellFormed(ls[i])
  {
    if ls != [] {
      LocationsErrorEmptyIff(ls[1..]);
      assert forall i :: 1 <= i < |ls| ==> ls[i] == ls[1..][i - 1];
    }
  }

  /** Validation stops at the first bad entry and reports that entry's message. */
  lemma {:induction false} LocationsErrorIsFirstBad(ls: seq<Entry>, k: nat)
    requires k < |ls|
    requires forall j :: 0 <= j < k ==> WellFormed(ls[j])
    requires !WellFormed(ls[k])
    ensures LocationsError(ls) == (if ls[k].id == "" then EmptyIdMsg else EmptyUriMsg)
  {
    if k > 0 {
      assert WellFormed(ls[0]);
      LocationsErrorIsFirstBad(ls[1..], k - 1);
    }
  }

  /** updateDefaultContentSteeringConfig: check the reload URI, then the TTL, then write
      both and hand the list to updateDefaultServiceLocationPriority, which installs it
      only if every entry passes. Returns the new state and the message ("" = accepted). */
  function Update(s: State, c: Config): (State, string)
  {
    if |c.reloadUri| == 0 then (s, EmptyReloadUriMsg)
    else if c.ttl <= 0 then (s, NonPositiveTtlMsg)
    else
      var msg := LocationsError(c.serviceLocations);
      (State(if msg == "" then c.serviceLocations else s.locations, c.reloadUri, c.ttl), msg)
  }

  /** A bad reload URI or TTL is rejected, reload URI first, and nothing changes. */
  lemma UpdateRejectsParameters(s: State, c: Config)
    requires c.reloadUri == "" || c.ttl <= 0
    ensures Update(s, c).0 == s
    ensures Update(s, c).1 == if c.reloadUri == "" then EmptyReloadUriMsg else NonPositiveTtlMsg
  {
  }

  /** A fully valid configuration is accepted and replaces the whole state, keeping the
      submitted order of the service locations. */
  lemma UpdateAccepts(s: State, c: Config)
    requires c.reloadUri != "" && c.ttl > 0
    requires forall i :: 0 <= i < |c.serviceLocations| ==> WellFormed(c.serviceLocations[i])
    ensures Update(s, c) == (State(c.serviceLocations, c.reloadUri, c.ttl), "")
  {
    LocationsErrorEmptyIff(c.serviceLocations);
  }

  /** A bad entry at index k (after good ones) is reported with its own message; the table
      keeps its old value but the reload URL and TTL have already been replaced. The update
      is therefore not all-or-nothing. */
  lemma UpdateRejectsEntry(s: State, c: Config, k: nat)
    requires c.reloadUri != "" && c.ttl > 0
    requires k < |c.serviceLocations|
    requires forall j :: 0 <= j < k ==> WellFormed(c.serviceLocations[j])
    requires !WellFormed(c.serviceLocations[k])
    ensures Update(s, c).1 == if c.serviceLocations[k].id == "" then EmptyIdMsg else EmptyUriMsg
    ensures Update(s, c).0 == State(s.locations, c.reloadUri, c.ttl)
  {
    LocationsErrorIsFirstBad(c.serviceLocations, k);
  }

  /** The update succeeds exactly when the parameters and every entry are valid. */
  lemma UpdateSucceedsIff(s: State, c: Config)
    ensures Update(s, c).1 == "" <==>
      (c.reloadUri != "" && c.ttl > 0 &&
       forall i :: 0 <= i < |c.serviceLocations| ==> WellFormed(c.serviceLocations[i]))
  {
    LocationsErrorEmptyIff(c.serviceLocations);
  }

  /** Applying the same configuration twice has the same effect and answer as applying it once. */
  lemma UpdateIdempotent(s: State, c: Config)
    ensures Update(Update(s, c).0, c) == Update(s, c)
  {
  }

  /** Whatever is submitted, an update never installs an unchecked value. */
  lemma UpdatePreservesValid(s: State, c: Config)
    requires ValidState(s)
    ensures ValidState(Update(s, c).0)
  {
    LocationsErrorEmptyIff(c.serviceLocations);
  }
}
