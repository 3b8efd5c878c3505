/** A draft-22 subscription as SUBSCRIBE and SUBSCRIBE_OK leave it: the two ends mirror each
    other, and the subscriber is right about the fill it asked for with the SUBSCRIBE. */
module Establishment {
  import opened Wire
  import opened LocationFilters
  import opened Parameters
  import opened ParameterRoundTrips
  import opened EarlyUpdates
  import opened Fills
  import opened Updates
  import opened UpdatePipeline

  /** What the subscriber records of the SUBSCRIBE it sends. */
  function AskedFor(params: ParameterList): View {
    View(ForwardOf(params, true) == Success(false), ActiveFilter(FilterOf(params)))
  }

  /** The Largest Object that SUBSCRIBE_OK reports, at either end. */
  function Reported(params: ParameterList): Option<Location> {
    var p := First(params, LARGEST_OBJECT);
    if p.None? then None else Some(p.value.location)
  }

  /** The report crosses the wire unchanged, in either draft. */
  lemma ReportArrives(params: ParameterList, version: Version)
    ensures Reported(ArrivedParams(params, version)) == Reported(params)
  {
    hide CanonList, SortedParameters, First;
    FirstArrived(params, TopLevel(version), version, LARGEST_OBJECT);
    FirstIsMember(params, LARGEST_OBJECT);
    assert Lookup(TopLevel(version), LARGEST_OBJECT) == Some(Def(Pair, false));
  }

  /** What the SUBSCRIBE asks for is what the publisher accepts: the two ends start out mirroring each other,
      where the runs of UpdatePipeline start. */
  lemma StartsMirrored(params: ParameterList)
    requires BlockBytes(params, TopLevel(Draft22), Draft22).Success?
    requires AcceptSettings(ArrivedParams(params, Draft22)).Success?
    ensures var v, s := AskedFor(params), AcceptSettings(ArrivedParams(params, Draft22)).value;
            && Mirrors(v, s) && ValidFilter(v.filter)
            && forall limit, id, largest ::
                 Start(Setting(Draft22, limit, id, s.priority, v.paused, v.filter, largest)).pub
                 == Publisher(s, largest, false)
  {
    hide CanonList, SortedParameters, BlockBytes, First;
    ForwardArrives(params);
    FilterArrives(params, TopLevel(Draft22));
    if FilterOf(params).Some? {
      NoneStaysNone(FilterOf(params).value);
    }
  }

  /** With no update before the answer: on hearing SUBSCRIBE_OK the subscriber gives up on the SUBSCRIBE's own
      fill, if its stream is not there, exactly when the publisher opens none for it. */
  lemma OwnFillExpectationIsRight(params: ParameterList, ok: ParameterList)
    requires BlockBytes(params, TopLevel(Draft22), Draft22).Success? && FillOf(params).Some?
    requires AcceptSettings(ArrivedParams(params, Draft22)).Success?
    ensures var v, s := AskedFor(params), AcceptSettings(ArrivedParams(params, Draft22)).value;
            && FillOf(ArrivedParams(params, Draft22)).Some?
            && (ConcludesNone(v.filter, v.paused, Reported(ArrivedParams(ok, Draft22)), FillOf(params).value)
                <==> !Opens(s, Reported(ok), FillOf(ArrivedParams(params, Draft22)).value))
  {
    hide BlockBytes, ArrivedParams, AcceptSettings, AskedFor, Mirrors, ConcludesNone, Opens, FillArrived, ValidFilter;
    hide Reported;
    StartsMirrored(params);
    FillArrives(params);
    FilterArrives(FillOf(params).value, Fill);
    ReportArrives(ok, Draft22);
    SameFill(AskedFor(params), AcceptSettings(ArrivedParams(params, Draft22)).value, Reported(ok), FillOf(params).value);
  }
}
