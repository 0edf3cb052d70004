/** The node and pipe records of the Harare water network and the feature
    mappers that build them from the raw GeoJSON features
    (harareData.ts, lines 1-79). A feature is a `properties` bag plus a
    `geometry`; each mapper turns one feature into one flat record, copying
    the known property keys and normalising the `Status` property. */
module Assets {
  import opened Wrappers
  import opened Ascii

  /** The status values the metrics look for, and the fallback status. */
  const Normal: string := "normal"
  const Faulty: string := "faulty"
  const Unknown: string := "unknown"

  /** A node's GeoJSON point geometry: a type tag and one coordinate pair. */
  datatype PointGeometry = PointGeometry(kind: string, coordinates: (real, real))

  /** A pipe's GeoJSON line geometry: a type tag and nested coordinate paths. */
  datatype LineGeometry = LineGeometry(kind: string, coordinates: seq<seq<(real, real)>>)

  /** One raw feature of a feature collection. */
  datatype Feature<P, G> = Feature(properties: P, geometry: G)

  /** The property keys of a node feature that the mapper reads. `Status`
      is None when the key is absent, `undefined` or `null`. */
  datatype NodeProperties = NodeProperties(
    node_id: string,
    p_name: string,
    start_node_name: string,
    end_node_name: string,
    elevation: real,
    betweennes: real,
    node_degre: real,
    eccentrici: real,
    start_latitude: real,
    start_longitude: real,
    pressure: real,
    head: real,
    demand: real,
    end_latitude: real,
    end_longitude: real,
    elevation_y: real,
    length: real,
    Status: Option<string>)

  type NodeFeature = Feature<NodeProperties, PointGeometry>

  /** A network junction or reservoir. */
  datatype Node = Node(
    id: string,
    p_name: string,
    start_node_name: string,
    end_node_name: string,
    node_id: string,
    elevation: real,
    betweennes: real,
    node_degre: real,
    eccentrici: real,
    start_latitude: real,
    start_longitude: real,
    pressure: real,
    head: real,
    demand: real,
    end_latitude: real,
    end_longitude: real,
    elevation_y: real,
    length: real,
    status: string,
    geometry: PointGeometry)

  /** The property keys of a pipe feature that the mapper reads; note the
      capitalised `Velocity` key. */
  datatype PipeProperties = PipeProperties(
    line_id: string,
    start_node: string,
    end_node_n: string,
    diameter: real,
    roughness: real,
    length: real,
    Status: Option<string>,
    Velocity: real,
    flow_rate: real)

  type PipeFeature = Feature<PipeProperties, LineGeometry>

  /** A pipe segment between two nodes. */
  datatype Pipe = Pipe(
    line_id: string,
    start_node: string,
    end_node_n: string,
    diameter: real,
    roughness: real,
    length: real,
    status: string,
    velocity: real,
    flow_rate: real,
    geometry: LineGeometry)

  /** What a record's status can be after mapping: non-empty and free of
      upper-case letters. */
  predicate IsNormalisedStatus(s: string) {
    s != "" && IsLower(s)
  }

  /** `Status?.toLowerCase() || 'unknown'`: an absent status and a status
      that lower-cases to the (falsy) empty string both become "unknown". */
  function NormaliseStatus(raw: Option<string>): (r: string)
    ensures IsNormalisedStatus(r)
    ensures raw.Some? && raw.value != "" ==> r == ToLower(raw.value)
    ensures raw.None? || raw.value == "" ==> r == Unknown
  {
    assert IsLower(Unknown) by {
      assert forall i :: 0 <= i < |Unknown| ==> 'a' <= Unknown[i] <= 'z';
    }
    match raw
    case None => Unknown
    case Some(s) =>
      var lowered := ToLower(s);
      if lowered == "" then Unknown else lowered
  }

  /** Normalising an already normalised status changes nothing. */
  lemma NormaliseStatusIdempotent(raw: Option<string>)
    ensures NormaliseStatus(Some(NormaliseStatus(raw))) == NormaliseStatus(raw)
  {
  }

  function MapNode(f: NodeFeature): Node {
    var p := f.properties;
    Node(p.node_id, p.p_name, p.start_node_name, p.end_node_name, p.node_id,
         p.elevation, p.betweennes, p.node_degre, p.eccentrici,
         p.start_latitude, p.start_longitude, p.pressure, p.head, p.demand,
         p.end_latitude, p.end_longitude, p.elevation_y, p.length,
         NormaliseStatus(p.Status), f.geometry)
  }

  function MapPipe(f: PipeFeature): Pipe {
    var p := f.properties;
    Pipe(p.line_id, p.start_node, p.end_node_n, p.diameter, p.roughness,
         p.length, NormaliseStatus(p.Status), p.Velocity, p.flow_rate,
         f.geometry)
  }

  /** `features.map(...)` for nodes: one record per feature, record i built
      from feature i. */
  function MapNodes(features: seq<NodeFeature>): (r: seq<Node>)
    ensures |r| == |features|
    ensures forall i :: 0 <= i < |features| ==> r[i] == MapNode(features[i])
  {
    if |features| == 0 then [] else [MapNode(features[0])] + MapNodes(features[1..])
  }

  /** `features.map(...)` for pipes: one record per feature, record i built
      from feature i. */
  function MapPipes(features: seq<PipeFeature>): (r: seq<Pipe>)
    ensures |r| == |features|
    ensures forall i :: 0 <= i < |features| ==> r[i] == MapPipe(features[i])
  {
    if |features| == 0 then [] else [MapPipe(features[0])] + MapPipes(features[1..])
  }

  /** What each mapped node holds: both identifiers come from `node_id`,
      the measured values are copied, the geometry is passed through, and
      the status is the normalised `Status` (so "unknown" when it is
      missing or empty, and lower-case and non-empty in every case). */
  lemma MapNodesFields(features: seq<NodeFeature>)
    ensures forall i :: 0 <= i < |features| ==>
      var n, p := MapNodes(features)[i], features[i].properties;
      && n.id == p.node_id && n.node_id == p.node_id
      && n.pressure == p.pressure && n.demand == p.demand
      && n.geometry == features[i].geometry
      && IsNormalisedStatus(n.status) && ToLower(n.status) == n.status
      && (p.Status.None? || p.Status == Some("") ==> n.status == Unknown)
      && (p.Status.Some? && p.Status.value != "" ==> n.status == ToLower(p.Status.value))
  {
    forall i | 0 <= i < |features|
      ensures var r := MapNodes(features)[i]; r == MapNode(features[i]) && ToLower(r.status) == r.status
    {
      var r := MapNodes(features)[i];
      ToLowerFixesExactlyLower(r.status);
    }
  }

  /** What each mapped pipe holds: `velocity` comes from the capitalised
      `Velocity` key, the flow rate is copied, the geometry is passed
      through, and the status is normalised as for nodes. */
  lemma MapPipesFields(features: seq<PipeFeature>)
    ensures forall i :: 0 <= i < |features| ==>
      var q, p := MapPipes(features)[i], features[i].properties;
      && q.line_id == p.line_id
      && q.velocity == p.Velocity && q.flow_rate == p.flow_rate
      && q.geometry == features[i].geometry
      && IsNormalisedStatus(q.status) && ToLower(q.status) == q.status
      && (p.Status.None? || p.Status == Some("") ==> q.status == Unknown)
      && (p.Status.Some? && p.Status.value != "" ==> q.status == ToLower(p.Status.value))
  {
    forall i | 0 <= i < |features|
      ensures var r := MapPipes(features)[i]; r == MapPipe(features[i]) && ToLower(r.status) == r.status
    {
      var r := MapPipes(features)[i];
      ToLowerFixesExactlyLower(r.status);
    }
  }

  predicate NodeIsNormal(n: Node) { n.status == Normal }
  predicate NodeIsFaulty(n: Node) { n.status == Faulty }
  predicate NodeIsUnknown(n: Node) { n.status == Unknown }
  predicate PipeIsNormal(p: Pipe) { p.status == Normal }
  predicate PipeIsFaulty(p: Pipe) { p.status == Faulty }
  predicate PipeIsUnknown(p: Pipe) { p.status == Unknown }
}
