/** The client's services for the two third-party APIs (`animalService`,
    `plantService`): each asks the backend proxy and, on failure, either
    substitutes a fixed mock payload or gives up with `null`. What the proxy
    call ended with is a parameter. */
module ExternalApi {

  import opened Options
  import opened Json

  /** What `backendApi.get(...)` ended with: the reply's `data`, or a
      rejection carrying `error.response` when there was one. */
  datatype Outcome =
    | Resolved(data: Json)
    | Rejected(response: Option<Response>)

  // ----- Mock animal table -----

  const AXOLOTL: Json := Obj([
    ("name", Str("Axolotl")),
    ("taxonomy", Obj([
      ("kingdom", Str("Animalia")),
      ("phylum", Str("Chordata")),
      ("class", Str("Amphibia")),
      ("order", Str("Urodela")),
      ("family", Str("Ambystomatidae")),
      ("genus", Str("Ambystoma")),
      ("scientific_name", Str("Ambystoma mexicanum"))])),
    ("locations", Arr([Str("Mexico")])),
    ("characteristics", Obj([
      ("prey", Str("Gusanos, insectos, peces pequeños")),
      ("name_of_young", Str("Larva")),
      ("group_behavior", Str("Solitario")),
      ("estimated_population_size", Str("Menos de 1,000 en estado salvaje")),
      ("biggest_threat", Str("Contaminación del agua y urbanización")),
      ("most_distinctive_feature", Str("Branquias externas y capacidad de regeneración")),
      ("other_name", Str("Pez Caminante Mexicano")),
      ("gestation_period", Str("14 días")),
      ("habitat", Str("Lagos y canales de agua dulce")),
      ("diet", Str("Carnívoro")),
      ("type", Str("Anfibio")),
      ("common_name", Str("Axolotl")),
      ("number_of_species", Str("1")),
      ("location", Str("Lago Xochimilco, Ciudad de México")),
      ("color", Str("Rosa, Café, Blanco, Negro, Dorado")),
      ("skin_type", Str("Permeable")),
      ("lifespan", Str("10-15 años")),
      ("weight", Str("60-200g")),
      ("length", Str("15-45cm")),
      ("age_of_sexual_maturity", Str("12-18 meses")),
      ("venomous", Str("No"))]))])

  /** The mock table of `getMockAnimalData`, keyed by exact name. */
  const ANIMAL_MOCKS: map<string, Json> := map["axolotl" := Arr([AXOLOTL])]

  /** `getMockAnimalData`: `mockData[name] || []`. The key is exact: only
      `"axolotl"` has a record, and every other name, whatever its case,
      gets the empty list. */
  function MockAnimalData(name: string): (r: Json)
    ensures name == "axolotl" ==> r == Arr([AXOLOTL])
    ensures name != "axolotl" ==> r == Arr([])
    ensures r.Arr? && |r.items| <= 1
  {
    var entry := if name in ANIMAL_MOCKS then Some(ANIMAL_MOCKS[name]) else None;
    if entry.Some? && Truthy(entry.value) then entry.value else Arr([])
  }

  // ----- Mock plant table -----

  /** One record of the mock plant table; `idText` is `id` as it appears in
      the record's `links.self` path. */
  function MockPlant(id: int, idText: string, commonName: string, scientificName: string,
                     familyCommonName: string, bibliography: string, imageUrl: string,
                     observations: string, family: string): Json
  {
    Obj([
      ("id", Num(id)),
      ("common_name", Str(commonName)),
      ("scientific_name", Str(scientificName)),
      ("family_common_name", Str(familyCommonName)),
      ("year", Num(1753)),
      ("bibliography", Str(bibliography)),
      ("image_url", Str(imageUrl)),
      ("observations", Str(observations)),
      ("family", Str(family)),
      ("links", Obj([("self", Str("/api/v1/plants/" + idText))]))])
  }

  /** The four mangrove records of `getMockPlantData`, as `{data: [...]}`. */
  const MOCK_MANGROVES: Json := Obj([("data", Arr([
    MockPlant(1, "1", "Red Mangrove", "Rhizophora mangle", "Mangrove Family", "Sp. Pl. 1: 443",
              "https://images.unsplash.com/photo-1590227986583-2f634e98855e?w=400",
              "Most common mangrove species. Can tolerate high salinity.", "Rhizophoraceae"),
    MockPlant(2, "2", "Black Mangrove", "Avicennia germinans", "Verbena Family", "Sp. Pl. 1: 110",
              "https://images.unsplash.com/photo-1565008576549-57569a49371d?w=400",
              "Identified by pneumatophores (breathing roots) that grow vertically.", "Acanthaceae"),
    MockPlant(3, "3", "White Mangrove", "Laguncularia racemosa", "Leadwood Tree Family", "Sp. Pl. 1: 177",
              "https://images.unsplash.com/photo-1542273917363-3b1817f69a2d?w=400",
              "Found in higher elevations of mangrove forests. Salt-excreting glands on leaves.",
              "Combretaceae"),
    MockPlant(4, "4", "Buttonwood", "Conocarpus erectus", "Combretum Family", "Sp. Pl. 1: 176",
              "https://images.unsplash.com/photo-1518531933037-91b2f5f229cc?w=400",
              "Often considered a mangrove associate. Grows at forest edges.", "Combretaceae")]))])

  const NO_PLANTS: Json := Obj([("data", Arr([]))])

  /** `toLowerCase` on one character, for the ASCII letters. */
  function LowerChar(c: char): char {
    if 'A' <= c <= 'Z' then (c as int + 32) as char else c
  }

  /** `String.prototype.toLowerCase`, character by character. */
  function ToLower(s: string): (r: string)
    ensures |r| == |s|
    ensures forall i :: 0 <= i < |s| ==> r[i] == LowerChar(s[i])
  {
    if s == [] then [] else [LowerChar(s[0])] + ToLower(s[1..])
  }

  /** `s` and `t` differ at most in the case of their letters. */
  predicate SameIgnoringCase(s: string, t: string) {
    |s| == |t| && forall i :: 0 <= i < |s| ==> LowerChar(s[i]) == LowerChar(t[i])
  }

  /** `sub` occurs in `s` starting at position `i`. */
  predicate OccursAt(s: string, sub: string, i: int) {
    0 <= i && i + |sub| <= |s| && s[i..i + |sub|] == sub
  }

  /** `String.prototype.includes`: `sub` occurs in `s` at some position. */
  function Includes(s: string, sub: string): (b: bool)
    ensures b <==> exists i :: OccursAt(s, sub, i)
    decreases |s|
  {
    if |s| < |sub| then false
    else if s[..|sub|] == sub then assert OccursAt(s, sub, 0); true
    else
      IncludesShift(s, sub);
      Includes(s[1..], sub)
  }

  /** When `sub` is not a prefix of `s`, it occurs in `s` exactly when it
      occurs in `s[1..]`. */
  lemma IncludesShift(s: string, sub: string)
    requires |sub| <= |s| && s[..|sub|] != sub
    ensures (exists i :: OccursAt(s, sub, i)) <==> (exists i :: OccursAt(s[1..], sub, i))
  {
    forall i | OccursAt(s[1..], sub, i) ensures OccursAt(s, sub, i + 1) {
      assert s[1..][i..i + |sub|] == s[i + 1..i + 1 + |sub|];
    }
    forall i | OccursAt(s, sub, i) ensures OccursAt(s[1..], sub, i - 1) {
      assert i != 0;
      assert s[1..][i - 1..i - 1 + |sub|] == s[i..i + |sub|];
    }
  }

  /** `getMockPlantData`: the mangroves when the lower-cased query contains
      `"mang"`, otherwise `{data: []}`. */
  function MockPlantData(query: string): (r: Json)
    ensures (exists i :: OccursAt(ToLower(query), "mang", i)) ==> r == MOCK_MANGROVES
    ensures (forall i :: !OccursAt(ToLower(query), "mang", i)) ==> r == NO_PLANTS
    ensures r == MOCK_MANGROVES || r == NO_PLANTS
  {
    if Includes(ToLower(query), "mang") then MOCK_MANGROVES else NO_PLANTS
  }

  /** Queries that differ only in letter case get the same mock answer. */
  lemma {:induction false} MockPlantDataIgnoresCase(q1: string, q2: string)
    requires SameIgnoringCase(q1, q2)
    ensures MockPlantData(q1) == MockPlantData(q2)
  {
    assert ToLower(q1) == ToLower(q2);
  }

  /** Lower-casing twice is lower-casing once. */
  lemma ToLowerIdempotent(s: string)
    ensures ToLower(ToLower(s)) == ToLower(s)
  {
  }

  /** The mock answer for a query is the one for its lower-cased form. */
  lemma MockPlantDataOfLowered(query: string)
    ensures MockPlantData(ToLower(query)) == MockPlantData(query)
  {
    ToLowerIdempotent(query);
  }

  // ----- Service calls and their fallback policy -----

  /** `animalService.getAnimalByName`: the proxy's data on success; on any
      failure the mock, whether or not the error body says `useMock`. */
  function GetAnimalByName(name: string, outcome: Outcome): (r: Json)
    ensures outcome.Resolved? ==> r == outcome.data
    ensures outcome.Rejected? ==> r == MockAnimalData(name)
  {
    match outcome
    case Resolved(data) => data
    case Rejected(response) =>
      if response.Some? && SuggestsMock(response.value.body) then MockAnimalData(name)
      else MockAnimalData(name)
  }

  /** `plantService.searchPlants`: the proxy's data on success; on any
      failure the mock, whether or not the error body says `useMock`. */
  function SearchPlants(query: string, outcome: Outcome): (r: Json)
    ensures outcome.Resolved? ==> r == outcome.data
    ensures outcome.Rejected? ==> r == MockPlantData(query)
  {
    match outcome
    case Resolved(data) => data
    case Rejected(response) =>
      if response.Some? && SuggestsMock(response.value.body) then MockPlantData(query)
      else MockPlantData(query)
  }

  /** `plantService.getPlantById`: the proxy's data on success, `null` on
      any failure; there is no mock for a single plant. */
  function GetPlantById(id: string, outcome: Outcome): (r: Json)
    ensures outcome.Resolved? ==> r == outcome.data
    ensures outcome.Rejected? ==> r == Null
  {
    match outcome
    case Resolved(data) => data
    case Rejected(_) => Null
  }
}
