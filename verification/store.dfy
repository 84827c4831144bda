/** The in-memory session store: for every page URL, the list of saved debug sessions.
    The JSON file the Go store mirrors this map into is not modelled; only the outcome of
    removing it is, because it decides the error `ClearAllSessions` and `Cleanup` return. */
module Storage {
  import opened Wrappers
  import opened DebuggerTypes

  /** One saved run; `timestamp` is the clock reading passed in at save time. */
  datatype DebugSession = DebugSession(
    version: int,
    timestamp: int,
    results: map<string, PageResults>,
    errors: map<string, string>)

  /** What `os.Remove` did to the data file. */
  datatype RemoveOutcome = Removed | NotExist | RemoveFailed(reason: string)

  /** The list stored for `url`; a URL never saved reads as an empty list. */
  function SessionsFor(sessions: map<string, seq<DebugSession>>, url: string): seq<DebugSession>
  {
    if url in sessions then sessions[url] else []
  }

  /** Every URL's list carries the versions 1, 2, ..., n in order. */
  ghost predicate Versioned(sessions: map<string, seq<DebugSession>>)
  {
    forall url :: url in sessions ==> forall i :: 0 <= i < |sessions[url]| ==> sessions[url][i].version == i + 1
  }

  /** The session `SaveSession` appends for `url` when the URL already holds `prior` sessions. */
  function NextSession(prior: seq<DebugSession>, url: string, results: PageResults,
                       errors: map<string, string>, now: int): DebugSession
  {
    DebugSession(|prior| + 1, now, map[url := results], errors)
  }

  class Store {
    /** URL to its sessions, oldest first. */
    var sessions: map<string, seq<DebugSession>>

    ghost predicate Valid()
      reads this
    {
      Versioned(sessions)
    }

    constructor ()
      ensures Valid() && sessions == map[]
    {
      sessions := map[];
    }

    /** Appends a session whose version is one more than the number already stored for
        `url`, holding the results under `url` alone and the errors as given. The map is
        updated before the data file is written, so a failed write (`writeError`) is
        reported but the session stays. */
    method SaveSession(url: string, results: PageResults, errors: map<string, string>, now: int,
                       writeError: Option<string>) returns (err: Option<string>)
      requires Valid()
      modifies this
      ensures Valid() && err == writeError
      ensures sessions == old(sessions)[url := SessionsFor(old(sessions), url)
                                             + [NextSession(SessionsFor(old(sessions), url), url, results, errors, now)]]
      ensures sessions[url][|sessions[url]| - 1].results.Keys == {url}
    {
      var prior := SessionsFor(sessions, url);
      var newVersion := |prior| + 1;
      var session := DebugSession(newVersion, now, map[url := results], errors);
      sessions := sessions[url := prior + [session]];
      err := writeError;
    }

    /** The sessions stored for `url`, oldest first; none for an unknown URL. */
    method GetSessions(url: string) returns (list: seq<DebugSession>)
      requires Valid()
      ensures list == SessionsFor(sessions, url)
      ensures forall i :: 0 <= i < |list| ==> list[i].version == i + 1
    {
      list := if url in sessions then sessions[url] else [];
    }

    /** Forgets `url` and nothing else; then writes the data file, whose failure is reported. */
    method ClearSessions(url: string, writeError: Option<string>) returns (err: Option<string>)
      requires Valid()
      modifies this
      ensures Valid() && err == writeError
      ensures sessions == old(sessions) - {url}
    {
      sessions := sessions - {url};
      err := writeError;
    }

    /** Empties the map, then removes the data file; a file that is already gone is not an error. */
    method ClearAllSessions(removal: RemoveOutcome) returns (err: Option<string>)
      requires Valid()
      modifies this
      ensures Valid() && sessions == map[]
      ensures err == if removal.RemoveFailed? then Some(removal.reason) else None
    {
      sessions := map[];
      if removal.RemoveFailed? {
        return Some(removal.reason);
      }
      err := None;
    }

    /** Same in-memory effect as `ClearAllSessions`. */
    method Cleanup(removal: RemoveOutcome) returns (err: Option<string>)
      requires Valid()
      modifies this
      ensures Valid() && sessions == map[]
      ensures err == if removal.RemoveFailed? then Some(removal.reason) else None
    {
      sessions := map[];
      if removal.RemoveFailed? {
        return Some(removal.reason);
      }
      err := None;
    }
  }

  /** Clearing twice, in the scenario where the first removal succeeds and the file system
      then reports the file gone on the second call: both calls succeed and the store is
      empty. */
  method ClearAllTwice(store: Store) returns (first: Option<string>, second: Option<string>)
    requires store.Valid()
    modifies store
    ensures first == None && second == None
    ensures store.Valid() && store.sessions == map[]
  {
    first := store.ClearAllSessions(Removed);
    second := store.ClearAllSessions(NotExist);
  }

  /** Saving twice for one URL yields versions 1 and 2 after a clear, and leaves other URLs alone. */
  method SaveTwiceAfterClear(store: Store, url: string, other: string, r1: PageResults, r2: PageResults)
    returns (list: seq<DebugSession>)
    requires store.Valid()
    modifies store
    ensures |list| == 2 && list[0].version == 1 && list[1].version == 2
    ensures list[0].results == map[url := r1] && list[1].results == map[url := r2]
    ensures other != url ==> other !in store.sessions
  {
    var _ := store.ClearAllSessions(NotExist);
    var _ := store.SaveSession(url, r1, map[], 0, None);
    var _ := store.SaveSession(url, r2, map[], 1, None);
    list := store.GetSessions(url);
  }
}
