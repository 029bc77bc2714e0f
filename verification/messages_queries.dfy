/**
  The `event` resolver: looks one event up by id, insists on a single row,
  maps it to a feature and fills in the feature's coordinates from the
  places the location service returns for it.
 */
module MessagesQueries {
  import opened Js
  import CC = CassandraConnector

  datatype EventArgs = EventArgs(messageId: Option<string>)

  /** The columns of `fortis.events` the feature is built from. */
  datatype EventRow = EventRow(
    pipeline: Option<string>,
    externalid: Option<string>,
    event_time: Option<int>,
    title: Option<string>,
    eventlangcode: Option<string>,
    sourceurl: Option<string>,
    messagebody: Option<string>,
    detectedkeywords: Option<seq<string>>,
    detectedplaceids: Option<seq<string>>,
    computedfeatures: Option<ComputedFeatures>)

  /** The average scores of a sentiment analysis. */
  datatype Scores = Scores(pos_avg: real, neg_avg: real)

  /** The analysis results stored with an event; either part may be absent. */
  datatype ComputedFeatures = ComputedFeatures(sentiment: Option<Scores>, sentence: Option<Scores>)

  /** A place from the location service; only its bounding box is used. */
  datatype Place = Place(id: string, bbox: seq<real>)

  datatype Properties = Properties(
    edges: Option<seq<string>>,
    messageid: Option<string>,
    createdtime: Option<int>,
    sentiment: real,
    title: Option<string>,
    originalSources: Value,
    language: Option<string>,
    source: Option<string>,
    fullText: Option<string>)

  datatype Feature = Feature(featureType: Option<string>, coordinates: seq<seq<real>>, properties: Properties)

  datatype Query = Query(query: string, params: seq<Value>)

  const EventQuery := "SELECT * FROM fortis.events WHERE id = ?"
  const NoEventIdMessage := "No event id to fetch specified"

  /** The lookup statement: one event by id, with the id as its only parameter. */
  function MakeEventQuery(messageId: string): (q: Query)
    ensures q.query == "SELECT * FROM fortis.events WHERE id = ?"
    ensures q.params == [Str(messageId)]
  {
    Query(EventQuery, [Str(messageId)])
  }

  /** `pipeline && [pipeline]`: a one-element list when the pipeline is truthy, else the falsy pipeline itself. */
  function OriginalSources(pipeline: Option<string>): (v: Value)
    ensures Truthy(v) <==> Present(pipeline)
    ensures Present(pipeline) ==> v == List([Str(pipeline.value)])
    ensures !Present(pipeline) ==> v == FromText(pipeline)
  {
    var p := FromText(pipeline);
    if Truthy(p) then List([p]) else p
  }

  /**
    The sentiment score of a row. A positive-leaning analysis scores its
    margin plus 0.6; any other row takes the else branch, which reads
    `computedfeatures.sentiment` and `computedfeatures.sentence`
    unguarded, so a row without either throws a TypeError.
   */
  function SentimentOf(features: Option<ComputedFeatures>): (r: Result<real>)
    ensures r.Ok? <==>
      features.Some? && features.value.sentiment.Some? &&
      (features.value.sentiment.value.pos_avg > features.value.sentiment.value.neg_avg || features.value.sentence.Some?)
    ensures r.Threw? ==> r.error.TypeError?
    ensures r.Ok? && features.value.sentiment.value.pos_avg > features.value.sentiment.value.neg_avg ==>
      r.value == features.value.sentiment.value.pos_avg - features.value.sentiment.value.neg_avg + 0.6 && r.value > 0.6
    ensures r.Ok? && features.value.sentiment.value.pos_avg <= features.value.sentiment.value.neg_avg ==>
      r.value == features.value.sentiment.value.neg_avg - features.value.sentence.value.pos_avg
  {
    if features.Some? && features.value.sentiment.Some?
       && features.value.sentiment.value.pos_avg > features.value.sentiment.value.neg_avg
    then
      Ok(features.value.sentiment.value.pos_avg - features.value.sentiment.value.neg_avg + 0.6)
    else if features.None? then Threw(TypeError("row.computedfeatures.sentiment"))
    else if features.value.sentiment.None? then Threw(TypeError("row.computedfeatures.sentiment.neg_avg"))
    else if features.value.sentence.None? then Threw(TypeError("row.computedfeatures.sentence.pos_avg"))
    else Ok(features.value.sentiment.value.neg_avg - features.value.sentence.value.pos_avg)
  }

  /**
    A row as a feature with no coordinates yet: every property is copied
    from its column, unless computing the sentiment throws.
   */
  function CassandraRowToFeature(row: EventRow): (r: Result<Feature>)
    ensures r.Ok? <==> SentimentOf(row.computedfeatures).Ok?
    ensures r.Threw? ==> r.error == SentimentOf(row.computedfeatures).error
    ensures r.Ok? ==>
      var f := r.value;
      && f.featureType == row.pipeline && f.coordinates == []
      && f.properties.edges == row.detectedkeywords
      && f.properties.messageid == row.externalid
      && f.properties.createdtime == row.event_time
      && f.properties.sentiment == SentimentOf(row.computedfeatures).value
      && f.properties.title == row.title
      && f.properties.language == row.eventlangcode
      && f.properties.source == row.sourceurl
      && f.properties.fullText == row.messagebody
      && f.properties.originalSources == OriginalSources(row.pipeline)
      && (Truthy(f.properties.originalSources) <==> Present(row.pipeline))
  {
    match SentimentOf(row.computedfeatures)
    case Threw(e) => Threw(e)
    case Ok(sentiment) =>
      Ok(Feature(
        row.pipeline,
        [],
        Properties(
          row.detectedkeywords,
          row.externalid,
          row.event_time,
          sentiment,
          row.title,
          OriginalSources(row.pipeline),
          row.eventlangcode,
          row.sourceurl,
          row.messagebody)))
  }

  /** `detectedplaceids || []`. */
  function PlaceIds(row: EventRow): seq<string>
  {
    match row.detectedplaceids
    case None => []
    case Some(ids) => ids
  }

  /** The rejection for a lookup that returned several rows. */
  function MoreEventsMessage(count: nat, eventId: string): string
  {
    "Got more " + NatToString(count) + " events with id " + eventId
  }

  /** The message names both the row count and the event id, and the count can be read back from it. */
  lemma MoreEventsMessageNamesCountAndId(count: nat, eventId: string)
    ensures var m := MoreEventsMessage(count, eventId);
      var digits := |NatToString(count)|;
      && m[..9] == "Got more "
      && ParseNat(m[9..9 + digits]) == count
      && m[|m| - |eventId|..] == eventId
  {
    var m := MoreEventsMessage(count, eventId);
    var digits := |NatToString(count)|;
    assert m[9..9 + digits] == NatToString(count);
    NatToStringRoundTrip(count);
  }

  predicate HasEventId(args: Option<EventArgs>)
  {
    args.Some? && Present(args.value.messageId)
  }

  /**
    `event`: without an id it rejects before any query is issued. Otherwise
    it issues the lookup; more than one row rejects with a message naming
    the count and the id, no row at all fails on the missing row, and
    exactly one row becomes a feature (or the conversion's TypeError) whose
    coordinates are the bounding boxes of the row's places, in order.
   */
  method Event(client: Option<CC.Client<EventRow>>, args: Option<EventArgs>,
               fetchById: seq<string> -> Outcome<seq<Place>>)
    returns (issued: Option<Query>, r: Outcome<Feature>)
    ensures !HasEventId(args) ==> issued == None && r == Rejected(Reason(NoEventIdMessage))
    ensures HasEventId(args) ==>
      var eventId := args.value.messageId.value;
      && issued == Some(MakeEventQuery(eventId))
      && match CC.QueryOutcome(client, CC.Request(EventQuery, [Str(eventId)], None))
         case Pending => r == Pending
         case Rejected(e) => r == Rejected(e)
         case Resolved(rows) =>
           if |rows| > 1 then r == Rejected(Reason(MoreEventsMessage(|rows|, eventId)))
           else if rows == [] then r.Rejected? && r.reason.TypeError?
           else match CassandraRowToFeature(rows[0])
             case Threw(e) => r == Rejected(e)
             case Ok(feature) =>
               match fetchById(PlaceIds(rows[0]))
               case Pending => r == Pending
               case Rejected(e) => r == Rejected(e)
               case Resolved(places) =>
                 && r.Resolved?
                 && r.value.featureType == feature.featureType
                 && r.value.properties == feature.properties
                 && |r.value.coordinates| == |places|
                 && forall i :: 0 <= i < |places| ==> r.value.coordinates[i] == places[i].bbox
  {
    issued := None;
    if !HasEventId(args) {
      return issued, Rejected(Reason(NoEventIdMessage));
    }
    var eventId := args.value.messageId.value;
    var query := MakeEventQuery(eventId);
    issued := Some(query);
    var rows := CC.ExecuteQuery(client, query.query, query.params, None);
    match rows {
      case Pending => r := Pending;
      case Rejected(e) => r := Rejected(e);
      case Resolved(rows) =>
        if |rows| > 1 {
          return issued, Rejected(Reason(MoreEventsMessage(|rows|, eventId)));
        }
        if rows == [] {
          // rows[0] is undefined, and reading its `pipeline` throws inside the promise chain
          return issued, Rejected(TypeError("row.pipeline"));
        }
        var row := rows[0];
        var converted := CassandraRowToFeature(row);
        if converted.Threw? {
          // the throw inside the `then` callback rejects the chain, and `catch(reject)` passes it on
          return issued, Rejected(converted.error);
        }
        var feature := converted.value;
        var places := fetchById(PlaceIds(row));
        match places {
          case Pending => r := Pending;
          case Rejected(e) => r := Rejected(e);
          case Resolved(found) =>
            feature := feature.(coordinates := seq(|found|, i requires 0 <= i < |found| => found[i].bbox));
            r := Resolved(feature);
        }
    }
  }
}
