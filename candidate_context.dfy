/**
 * The candidate store shared through a React context: two independent state
 * cells, the loaded candidate list and a nullable session id, each replaced
 * wholesale by its setter.
 */
module CandidateContext {
  import opened Wrappers
  import opened CandidateTable

  /** The message `useCandidates` throws outside a provider. */
  const OutsideProviderError := "useCandidates must be used within a CandidateProvider"

  /** The state one `CandidateProvider` holds. */
  class CandidateStore {
    var candidates: seq<CandidateEvaluation>
    var sessionId: Option<string>

    /** A provider starts with no candidates and no session id. */
    constructor ()
      ensures candidates == [] && sessionId == None
    {
      candidates := [];
      sessionId := None;
    }

    /** Replaces the whole list; the session id is untouched. */
    method SetCandidates(l: seq<CandidateEvaluation>)
      modifies this`candidates
      ensures candidates == l
      ensures sessionId == old(sessionId)
    {
      candidates := l;
    }

    /** Replaces the session id, `null` included; the list is untouched. */
    method SetSessionId(id: Option<string>)
      modifies this`sessionId
      ensures sessionId == id
      ensures candidates == old(candidates)
    {
      sessionId := id;
    }

    /** Reads the list exactly as last stored. */
    method GetCandidates() returns (l: seq<CandidateEvaluation>)
      ensures l == candidates
    {
      l := candidates;
    }

    /** Reads the session id exactly as last stored. */
    method GetSessionId() returns (id: Option<string>)
      ensures id == sessionId
    {
      id := sessionId;
    }
  }

  /**
   * `useCandidates()`: the enclosing provider's store, or the error it throws
   * when there is no provider; never a default store.
   */
  function UseCandidates(provider: Option<CandidateStore>): (r: Result<CandidateStore, string>)
    ensures r.Ok? <==> provider.Some?
    ensures r.Ok? ==> r.value == provider.value
    ensures r.Err? ==> r.error == OutsideProviderError
  {
    match provider
    case None => Err(OutsideProviderError)
    case Some(store) => Ok(store)
  }

  /**
   * One sequence of setter calls (a list, an id, then a second list):
   * readers see the second list, which replaced the first wholesale, and the
   * id, which the later list update left alone.
   */
  method LastWriteWins(first: seq<CandidateEvaluation>, second: seq<CandidateEvaluation>, id: Option<string>)
    returns (seen: seq<CandidateEvaluation>, seenId: Option<string>)
    ensures seen == second && seenId == id
  {
    var store := new CandidateStore();
    store.SetCandidates(first);
    store.SetSessionId(id);
    store.SetCandidates(second);
    seen := store.GetCandidates();
    seenId := store.GetSessionId();
  }
}
