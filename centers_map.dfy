/**
 * The electoral-centres map's presentation rules: the marker-cluster badge,
 * whose size, colours and font follow the number of centres it holds, and the
 * table of tile layers by map style.
 */
module CentersMap {
  import opened Wrappers

  /** A cluster badge: its diameter in pixels, fill and border colours, and font size in pixels. */
  datatype ClusterBadge = ClusterBadge(size: int, background: string, border: string, fontSize: int)

  /** `createClusterCustomIcon`'s thresholds: fewer than 10, 25, 50 or 100 centres, or more. */
  function ClusterBadgeFor(count: int): (b: ClusterBadge)
    ensures b.size in {36, 40, 44, 50, 56}
    ensures b.size == 36 <==> count < 10
    ensures b.size == 56 <==> count >= 100
    ensures b.fontSize == 14 <==> count >= 100
    ensures b.fontSize == 16 <==> count < 100
    ensures b.size % 2 == 0
  {
    var font := if count >= 100 then 14 else 16;
    if count < 10 then ClusterBadge(36, "#4ade80", "#22c55e", font)
    else if count < 25 then ClusterBadge(40, "#86efac", "#4ade80", font)
    else if count < 50 then ClusterBadge(44, "#fde047", "#facc15", font)
    else if count < 100 then ClusterBadge(50, "#fdba74", "#fb923c", font)
    else ClusterBadge(56, "#fca5a5", "#f87171", font)
  }

  /** A cluster holding more centres is never drawn smaller. */
  lemma {:induction false} ClusterSizeMonotone(c1: int, c2: int)
    requires c1 <= c2
    ensures ClusterBadgeFor(c1).size <= ClusterBadgeFor(c2).size
  {
  }

  /** Each band's lower bound, where the badge grows. */
  lemma {:induction false} ClusterBands()
    ensures ClusterBadgeFor(9).size == 36 && ClusterBadgeFor(10).size == 40
    ensures ClusterBadgeFor(24).size == 40 && ClusterBadgeFor(25).size == 44
    ensures ClusterBadgeFor(49).size == 44 && ClusterBadgeFor(50).size == 50
    ensures ClusterBadgeFor(99).size == 50 && ClusterBadgeFor(100).size == 56
  {
  }

  /** The icon's box and anchor: the badge is `size` by `size` and anchored at its centre. */
  datatype IconGeometry = IconGeometry(width: int, height: int, anchorX: int, anchorY: int)

  function IconGeometryFor(count: int): (g: IconGeometry)
    ensures g.width == g.height == ClusterBadgeFor(count).size
    ensures 2 * g.anchorX == g.width && 2 * g.anchorY == g.height
  {
    var size := ClusterBadgeFor(count).size;
    IconGeometry(size, size, size / 2, size / 2)
  }

  /** The nine map styles. */
  datatype MapStyle = Osm | CartodbPositron | CartodbVoyager | StamenTerrain | StamenToner | Cyclosm | EsriImagery | EsriStreet | Hot

  /** A style's name as the component's props spell it. */
  function StyleName(s: MapStyle): string {
    match s
    case Osm => "osm"
    case CartodbPositron => "cartodb-positron"
    case CartodbVoyager => "cartodb-voyager"
    case StamenTerrain => "stamen-terrain"
    case StamenToner => "stamen-toner"
    case Cyclosm => "cyclosm"
    case EsriImagery => "esri-imagery"
    case EsriStreet => "esri-street"
    case Hot => "hot"
  }

  /** The URL template of a style's tiles; the table has an entry for every style. */
  function TileUrl(s: MapStyle): string {
    match s
    case Osm => "https://{s}.tile.openstreetmap.org/{z}/{x}/{y}.png"
    case CartodbPositron => "https://{s}.basemaps.cartocdn.com/light_all/{z}/{x}/{y}{r}.png"
    case CartodbVoyager => "https://{s}.basemaps.cartocdn.com/rastertiles/voyager/{z}/{x}/{y}{r}.png"
    case StamenTerrain => "https://stamen-tiles-{s}.a.ssl.fastly.net/terrain/{z}/{x}/{y}{r}.png"
    case StamenToner => "https://stamen-tiles-{s}.a.ssl.fastly.net/toner/{z}/{x}/{y}{r}.png"
    case Cyclosm => "https://{s}.tile-cyclosm.openstreetmap.fr/cyclosm/{z}/{x}/{y}.png"
    case EsriImagery => "https://server.arcgisonline.com/ArcGIS/rest/services/World_Imagery/MapServer/tile/{z}/{y}/{x}"
    case EsriStreet => "https://server.arcgisonline.com/ArcGIS/rest/services/World_Street_Map/MapServer/tile/{z}/{y}/{x}"
    case Hot => "https://{s}.tile.openstreetmap.fr/hot/{z}/{x}/{y}.png"
  }

  /** The style named `name`, if any. */
  function ParseStyle(name: string): (r: Option<MapStyle>)
    ensures r.Some? ==> StyleName(r.value) == name
  {
    if name == "osm" then Some(Osm)
    else if name == "cartodb-positron" then Some(CartodbPositron)
    else if name == "cartodb-voyager" then Some(CartodbVoyager)
    else if name == "stamen-terrain" then Some(StamenTerrain)
    else if name == "stamen-toner" then Some(StamenToner)
    else if name == "cyclosm" then Some(Cyclosm)
    else if name == "esri-imagery" then Some(EsriImagery)
    else if name == "esri-street" then Some(EsriStreet)
    else if name == "hot" then Some(Hot)
    else None
  }

  /** Every style's name reads back as that style, so no two styles share a name. */
  lemma {:induction false} StyleNameRoundTrip(s: MapStyle)
    ensures ParseStyle(StyleName(s)) == Some(s)
  {
  }

  /** `getTileLayer(style = "osm")`: without a style, OpenStreetMap's tiles. */
  function TileLayerStyle(style: Option<MapStyle>): (r: MapStyle)
    ensures style.None? ==> r == Osm
    ensures style.Some? ==> r == style.value
  {
    style.GetOr(Osm)
  }

  /** The map component's own `mapStyle = "hot"` default. */
  function ComponentStyle(mapStyle: Option<MapStyle>): (r: MapStyle)
    ensures mapStyle.None? ==> r == Hot
    ensures mapStyle.Some? ==> r == mapStyle.value
  {
    mapStyle.GetOr(Hot)
  }

  /**
   * The component always passes a style, so `getTileLayer`'s own default is
   * never used: a map drawn without a style shows the humanitarian tiles.
   */
  lemma {:induction false} MapNeverUsesTileDefault(mapStyle: Option<MapStyle>)
    ensures TileLayerStyle(Some(ComponentStyle(mapStyle))) == ComponentStyle(mapStyle)
    ensures mapStyle.None? ==> TileLayerStyle(Some(ComponentStyle(mapStyle))) == Hot != Osm
  {
  }
}
