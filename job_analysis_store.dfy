/** The job-analysis store: one state cell around the analysis call. The
    analysis result is opaque and appears as a type parameter. */
module JobAnalysisStore {
  import opened Remote

  datatype JobAnalysisState<A> = JobAnalysisState(jobAnalysis: Option<A>, isLoading: bool, error: Option<string>)

  /** The request body sent to the analysis endpoint. */
  datatype JobAnalysisRequest = JobAnalysisRequest(profileId: string, jobDescription: string)

  function Initial<A>(): JobAnalysisState<A> {
    JobAnalysisState(None, false, None)
  }

  class Store<A> {
    var state: JobAnalysisState<A>

    constructor ()
      ensures state == Initial()
    {
      state := Initial();
    }

    /** `analyzeJobDescription(profileId, jobDescription)`: the request it
        sends, and the data it returns (`None` for the `undefined` a failure
        returns; nothing is rethrown). A failure keeps the previous
        analysis. */
    method AnalyzeJobDescription(profileId: string, jobDescription: string, outcome: Outcome<A>)
      returns (request: JobAnalysisRequest, returned: Option<A>)
      modifies this
      ensures request == JobAnalysisRequest(profileId, jobDescription)
      ensures outcome.Success? ==>
        returned == Some(outcome.value)
        && state == JobAnalysisState(Some(outcome.value), false, None)
      ensures outcome.Failure? ==>
        returned == None
        && state == JobAnalysisState(old(state).jobAnalysis, false,
                                     Some(ErrorMessageOr(outcome.error, "Failed to analyze job description")))
    {
      state := state.(isLoading := true, error := None);
      request := JobAnalysisRequest(profileId, jobDescription);
      match outcome
      case Success(data) =>
        state := state.(jobAnalysis := Some(data), isLoading := false);
        returned := Some(data);
      case Failure(e) =>
        state := state.(error := Some(ErrorMessageOr(e, "Failed to analyze job description")), isLoading := false);
        returned := None;
    }

    /** `reset()`. */
    method Reset()
      modifies this
      ensures state == Initial()
    {
      state := Initial();
    }
  }
}
