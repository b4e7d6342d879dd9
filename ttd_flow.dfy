/** The TTD optimisation screen (frontend/src/components/TTDOptimizationFlow.js):
    its initial values, the sliders' bounds, the submit check and the request
    it sends, held against the back end's request parsing. */
module TtdFlow {
  import opened Common
  import opened Schemas
  import Api

  /** The body `handleSubmit` posts: the trimmed id and the other inputs as they are. */
  function BuildRequest(uniprotId: string, maxMolecules: int, qedThreshold: real,
                        logpRange: (real, real), mwRange: (real, real)): TtdRequestBody {
    TtdRequestBody(Some(Trim(uniprotId)), Some(maxMolecules), Some(qedThreshold), Some(logpRange), Some(mwRange))
  }

  /** The slider bounds: QED in [0, 1]; LogP ends in [-3, 6]; MW ends in
      [100, 600]; a range slider keeps its two ends in order. */
  predicate SliderValues(qedThreshold: real, logpRange: (real, real), mwRange: (real, real)) {
    0.0 <= qedThreshold <= 1.0 &&
    -3.0 <= logpRange.0 <= logpRange.1 <= 6.0 &&
    100.0 <= mwRange.0 <= mwRange.1 <= 600.0
  }

  /** The back end takes a request built from the screen's values unchanged
      (with the id trimmed) exactly when the count lies in [1, 20]: the sliders
      cannot produce a threshold it refuses. The browser itself never submits a
      count outside [1, 20] (see `TtdScreen.HandleSubmit`), so the refusal is
      reached only by a client that bypasses the form. */
  lemma SentRequestParsed(uniprotId: string, maxMolecules: int, qedThreshold: real,
                          logpRange: (real, real), mwRange: (real, real))
    requires SliderValues(qedThreshold, logpRange, mwRange)
    ensures var r := ParseTtdRequest(BuildRequest(uniprotId, maxMolecules, qedThreshold, logpRange, mwRange));
      (r.Ok? <==> 1 <= maxMolecules <= 20) &&
      (r.Ok? ==> r.value == TtdRequest(Trim(uniprotId), maxMolecules, qedThreshold, logpRange, mwRange)) &&
      (r.Err? ==> r.error == ["max_molecules"])
  {
    var b := BuildRequest(uniprotId, maxMolecules, qedThreshold, logpRange, mwRange);
    assert TtdRequestErrors(b) == [] + (if 1 <= maxMolecules <= 20 then [] else ["max_molecules"]) + [];
  }

  /** Every request the screen actually sends is taken by the back end as
      sent: the sliders keep the threshold in bounds and the browser's form
      validation keeps the count in [1, 20]. */
  lemma SubmittedRequestAccepted(uniprotId: string, maxMolecules: int, qedThreshold: real,
                                 logpRange: (real, real), mwRange: (real, real))
    requires SliderValues(qedThreshold, logpRange, mwRange) && Api.CountFieldValid(maxMolecules)
    ensures ParseTtdRequest(BuildRequest(uniprotId, maxMolecules, qedThreshold, logpRange, mwRange)) ==
            Ok(TtdRequest(Trim(uniprotId), maxMolecules, qedThreshold, logpRange, mwRange))
  {
    SentRequestParsed(uniprotId, maxMolecules, qedThreshold, logpRange, mwRange);
  }

  /** Sending the back end's defaults for a trimmed id is the same as sending the id alone. */
  lemma DefaultsSameAsOmitted(uniprotId: string)
    requires Trim(uniprotId) == uniprotId
    ensures ParseTtdRequest(BuildRequest(uniprotId, DefaultMaxMolecules, DefaultQedThreshold, DefaultLogpRange, DefaultMwRange)) ==
            ParseTtdRequest(TtdRequestBody(Some(uniprotId), None, None, None, None))
    ensures ParseTtdRequest(TtdRequestBody(Some(uniprotId), None, None, None, None)) ==
            Ok(TtdRequest(uniprotId, DefaultMaxMolecules, DefaultQedThreshold, DefaultLogpRange, DefaultMwRange))
  {
    SentRequestParsed(uniprotId, DefaultMaxMolecules, DefaultQedThreshold, DefaultLogpRange, DefaultMwRange);
    TtdRequestDefaults(uniprotId, 1.0, 0.0);
  }

  const InitialUniprotId: string := "P00533"

  /** The screen's initial values are the back end's defaults, and the initial
      id needs no trimming: submitting the untouched screen is the same as
      sending the id alone. */
  lemma InitialValuesAreDefaults()
    ensures ParseTtdRequest(BuildRequest(InitialUniprotId, 10, 0.5, (-2.0, 5.0), (200.0, 500.0))) ==
            ParseTtdRequest(TtdRequestBody(Some(InitialUniprotId), None, None, None, None))
    ensures SliderValues(0.5, (-2.0, 5.0), (200.0, 500.0))
  {
    var id := InitialUniprotId;
    assert id[0] == 'P' && id[|id| - 1] == '3';
    TrimUnchanged(id);
    DefaultsSameAsOmitted(id);
  }

  class TtdScreen {
    var uniprotId: string
    var maxMolecules: int
    var qedThreshold: real
    var logpRange: (real, real)
    var mwRange: (real, real)
    var loading: bool
    var error: string
    var results: Option<GenerationResponse>

    function Inputs(): (string, int, real, (real, real), (real, real))
      reads this
    {
      (uniprotId, maxMolecules, qedThreshold, logpRange, mwRange)
    }

    ghost predicate Valid()
      reads this
    {
      SliderValues(qedThreshold, logpRange, mwRange)
    }

    constructor ()
      ensures Valid()
      ensures Inputs() == (InitialUniprotId, 10, 0.5, (-2.0, 5.0), (200.0, 500.0))
      ensures !loading && error == "" && results.None?
    {
      uniprotId := InitialUniprotId;
      maxMolecules := 10;
      qedThreshold := 0.5;
      logpRange := (-2.0, 5.0);
      mwRange := (200.0, 500.0);
      loading := false;
      error := "";
      results := None;
    }

    /** The text fields: any text, any number. */
    method Type(id: string, count: int)
      requires Valid()
      modifies this
      ensures Valid()
      ensures Inputs() == (id, count, old(qedThreshold), old(logpRange), old(mwRange))
      ensures loading == old(loading) && error == old(error) && results == old(results)
    {
      uniprotId, maxMolecules := id, count;
    }

    /** The three sliders; each hands back values inside its own bounds. */
    method Slide(qed: real, logp: (real, real), mw: (real, real))
      requires Valid() && SliderValues(qed, logp, mw)
      modifies this
      ensures Valid()
      ensures Inputs() == (old(uniprotId), old(maxMolecules), qed, logp, mw)
      ensures loading == old(loading) && error == old(error) && results == old(results)
    {
      qedThreshold, logpRange, mwRange := qed, logp, mw;
    }

    /** Pressing the submit button, with the request's outcome as `reply`. A
        count outside [1, 20] stops the browser's form validation before
        `handleSubmit` runs, so nothing changes and nothing is sent. Otherwise
        a blank id only sets the error, and any other id sends the request and
        the screen ends not loading, with the results or the error text. */
    method HandleSubmit(reply: Result<GenerationResponse, Option<string>>) returns (sent: Option<TtdRequestBody>)
      requires Valid()
      modifies this
      ensures Valid() && Inputs() == old(Inputs())
      ensures !Api.CountFieldValid(maxMolecules) ==>
        sent.None? && error == old(error) && loading == old(loading) && results == old(results)
      ensures Api.CountFieldValid(maxMolecules) && Trim(uniprotId) == "" ==>
        sent.None? && error == "Please enter a UniProt ID" && loading == old(loading) && results == old(results)
      ensures Api.CountFieldValid(maxMolecules) && Trim(uniprotId) != "" ==>
        sent == Some(BuildRequest(uniprotId, maxMolecules, qedThreshold, logpRange, mwRange)) && !loading &&
        (reply.Ok? ==> results == Some(reply.value) && error == "") &&
        (reply.Err? ==> results.None? && error == Api.FailureText(reply.error))
    {
      if !Api.CountFieldValid(maxMolecules) {
        return None;
      }
      if Trim(uniprotId) == "" {
        error := "Please enter a UniProt ID";
        return None;
      }
      sent := Some(BuildRequest(uniprotId, maxMolecules, qedThreshold, logpRange, mwRange));
      // `loading` is set for the request and cleared in its `finally`.
      var shown, message := None, "";
      if reply.Ok? {
        shown := Some(reply.value);
      } else {
        message := Api.FailureText(reply.error);
      }
      loading, error, results := false, message, shown;
    }
  }

  /** Whatever the user does with the sliders and fields, a submitted request
      names a non-blank target and a threshold the back end accepts. */
  lemma SubmittedRequestFacts(uniprotId: string, maxMolecules: int, qedThreshold: real,
                              logpRange: (real, real), mwRange: (real, real))
    requires SliderValues(qedThreshold, logpRange, mwRange) && Trim(uniprotId) != ""
    ensures var b := BuildRequest(uniprotId, maxMolecules, qedThreshold, logpRange, mwRange);
      b.uniprotId.Some? && !AllSpace(b.uniprotId.value) &&
      QedThresholdInBounds(b.qedThreshold.value) &&
      b.logpRange.value.0 <= b.logpRange.value.1 && b.mwRange.value.0 <= b.mwRange.value.1
  {
    var t := Trim(uniprotId);
    TrimShape(uniprotId);
    assert !IsSpace(t[0]);
  }
}
