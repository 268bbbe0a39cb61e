/**
 * The state of the create-point page and the transitions its event handlers
 * and effect callbacks apply to it. Each `useState` slot is a field of
 * `CreatePointForm`; each handler is a method that sets the slots the handler
 * sets and no other. HTTP responses and the device position are parameters:
 * the requests themselves, and the time at which their answers arrive, are
 * outside the model.
 */
module CreatePoint {
  import opened Wrappers
  import opened Responses
  import opened ContactForm
  import opened SelectedItems

  /** A position as the page stores it. The initial value and the geolocation
    * callback store a `[latitude, longitude]` array; the `dragend` handler
    * stores the `LatLng` object that Leaflet's `getLatLng()` returns, which has
    * `lat` and `lng` properties and is not iterable. Nothing computes with
    * coordinates; they are only copied. */
  datatype Position = Pair(latitude: real, longitude: real) | LatLng(lat: real, lng: real)

  /** The two coordinates of either form of position. */
  function Coordinates(p: Position): (c: (real, real))
  {
    match p
    case Pair(latitude, longitude) => (latitude, longitude)
    case LatLng(lat, lng) => (lat, lng)
  }

  /** The value of the first option of both selectors: "nothing chosen". */
  const Unselected: string := "0"

  /** The position the page starts from, before geolocation answers. */
  const Center: Position := Pair(-8.2648232, -35.9896734)

  const MunicipalitiesPrefix: string := "https://servicodados.ibge.gov.br/api/v1/localidades/estados/"
  const MunicipalitiesSuffix: string := "/municipios"

  /** The address of the municipality list of state `uf`. */
  function MunicipalitiesUrl(uf: string): (url: string)
    ensures |url| == |MunicipalitiesPrefix| + |uf| + |MunicipalitiesSuffix|
    ensures url[..|MunicipalitiesPrefix|] == MunicipalitiesPrefix
    ensures url[|MunicipalitiesPrefix|..|MunicipalitiesPrefix| + |uf|] == uf
    ensures url[|MunicipalitiesPrefix| + |uf|..] == MunicipalitiesSuffix
  {
    MunicipalitiesPrefix + uf + MunicipalitiesSuffix
  }

  /** Two different states are never sent to the same address. */
  lemma MunicipalitiesUrlInjective(a: string, b: string)
    requires MunicipalitiesUrl(a) == MunicipalitiesUrl(b)
    ensures a == b
  {
  }

  /** The body posted to the backend's `points` endpoint. */
  datatype PointData = PointData(
    name: string, email: string, whatsapp: string,
    uf: string, city: string,
    latitude: real, longitude: real,
    items: seq<int>)

  /** Why the submit handler stops before posting: `const [latitude, longitude]`
    * on a value that is not iterable throws a `TypeError`. */
  datatype SubmitError = PositionNotIterable

  /** A snapshot of every state slot of the page. */
  datatype FormState = FormState(
    items: seq<Item>, ufs: seq<string>, cities: seq<string>,
    selectedUf: string, selectedCity: string,
    selectedItems: seq<int>,
    initialPosition: Position, selectedPosition: Position,
    formData: FormData)

  class CreatePointForm {
    var items: seq<Item>
    var ufs: seq<string>
    var cities: seq<string>
    var selectedUf: string
    var selectedCity: string
    var selectedItems: seq<int>
    var initialPosition: Position
    var selectedPosition: Position
    var formData: FormData

    function State(): (s: FormState)
      reads this
    {
      FormState(items, ufs, cities, selectedUf, selectedCity, selectedItems,
                initialPosition, selectedPosition, formData)
    }

    /** Every handler keeps the selection free of duplicates, and the marker
      * position is either the starting centre or a dragged `LatLng`: the
      * geolocation answer never reaches it. */
    ghost predicate Valid()
      reads this
    {
      && NoDuplicates(selectedItems)
      && (selectedPosition == Center || selectedPosition.LatLng?)
    }

    /** The page as first rendered: nothing fetched, nothing chosen, both
      * positions at the default centre, empty contact fields. */
    constructor ()
      ensures Valid()
      ensures State() == FormState([], [], [], Unselected, Unselected, [],
                                   Center, Center, FormData("", "", ""))
    {
      items, ufs, cities := [], [], [];
      selectedUf, selectedCity := Unselected, Unselected;
      selectedItems := [];
      initialPosition, selectedPosition := Center, Center;
      formData := FormData("", "", "");
    }

    /** The geolocation callback: sets `initialPosition` to the device's
      * coordinates as an array, and leaves the marker where it is. */
    method ReceivePosition(latitude: real, longitude: real)
      requires Valid()
      modifies this
      ensures Valid()
      ensures State() == old(State()).(initialPosition := Pair(latitude, longitude))
    {
      initialPosition := Pair(latitude, longitude);
    }

    /** The answer of the `items` endpoint replaces the item list as it is. */
    method ReceiveItems(response: seq<Item>)
      requires Valid()
      modifies this
      ensures Valid()
      ensures State() == old(State()).(items := response)
    {
      items := response;
    }

    /** The answer of the state list replaces `ufs` by its `sigla` projection. */
    method ReceiveUfs(response: seq<UfResponse>)
      requires Valid()
      modifies this
      ensures Valid()
      ensures State() == old(State()).(ufs := UfInitials(response))
    {
      ufs := UfInitials(response);
    }

    /** The effect on `selectedUf`, run once when the page mounts and again
      * after every change of `selectedUf`: it returns early while no state is
      * chosen and otherwise requests that state's municipalities. It changes
      * no state itself. */
    method SelectedUfEffect() returns (request: Option<string>)
      ensures request.None? <==> selectedUf == Unselected
      ensures request.Some? ==> request.value == MunicipalitiesUrl(selectedUf)
    {
      if selectedUf == Unselected {
        return None;
      }
      request := Some(MunicipalitiesUrl(selectedUf));
    }

    /** The answer to a municipality request replaces `cities` wholesale by its
      * `nome` projection, whatever state is selected when it arrives. */
    method ReceiveCities(response: seq<CityResponse>)
      requires Valid()
      modifies this
      ensures Valid()
      ensures State() == old(State()).(cities := CityNames(response))
    {
      cities := CityNames(response);
    }

    /** The marker's `dragend` handler: when the marker exists, the `LatLng`
      * of its coordinates becomes the selected position; the initial position
      * is untouched. */
    method DragEnd(marker: Option<(real, real)>)
      requires Valid()
      modifies this
      ensures Valid()
      ensures marker.Some? ==>
        State() == old(State()).(selectedPosition := LatLng(marker.value.0, marker.value.1))
      ensures marker.None? ==> State() == old(State())
    {
      if marker.Some? {
        selectedPosition := LatLng(marker.value.0, marker.value.1);
      }
    }

    /** Choosing a state sets `selectedUf` only; the chosen city and the city
      * list are kept. React re-runs the `selectedUf` effect only when the value
      * changed, so a municipality request is issued exactly when the new state
      * differs from the old one and is not the "nothing chosen" option. */
    method SelectUf(uf: string) returns (request: Option<string>)
      requires Valid()
      modifies this
      ensures Valid()
      ensures State() == old(State()).(selectedUf := uf)
      ensures request.Some? <==> uf != old(selectedUf) && uf != Unselected
      ensures request.Some? ==> request.value == MunicipalitiesUrl(uf)
    {
      var changed := uf != selectedUf;
      selectedUf := uf;
      request := None;
      if changed {
        request := SelectedUfEffect();
      }
    }

    /** Choosing a city sets `selectedCity` only. */
    method SelectCity(city: string)
      requires Valid()
      modifies this
      ensures Valid()
      ensures State() == old(State()).(selectedCity := city)
    {
      selectedCity := city;
    }

    /** A change in the input named `key`. */
    method InputChange(key: string, value: string)
      requires Valid()
      modifies this
      ensures Valid()
      ensures State() == old(State()).(formData := Merge(old(formData), key, value))
    {
      formData := Merge(formData, key, value);
    }

    /** A click on item `id`. */
    method SelectItem(id: int)
      requires Valid()
      modifies this
      ensures Valid()
      ensures State() == old(State()).(selectedItems := Toggle(old(selectedItems), id))
    {
      ToggleKeepsNoDuplicates(selectedItems, id);
      selectedItems := Toggle(selectedItems, id);
    }

    /** The submit handler as written. It destructures `selectedPosition` as an
      * array, which throws once a drag has stored a `LatLng` object there; in
      * that case nothing is posted. Otherwise it builds the body `SubmitIntended`
      * builds. Nothing in state changes. */
    method Submit() returns (result: Result<PointData, SubmitError>)
      requires Valid()
      ensures result.Failure? <==> selectedPosition.LatLng?
      ensures result.Success? ==> NoDuplicates(result.value.items)
      ensures result.Success? ==>
        (result.value.latitude, result.value.longitude) == Coordinates(Center)
      ensures result.Success? ==>
        && result.value.name == formData.name && result.value.email == formData.email
        && result.value.whatsapp == formData.whatsapp
        && result.value.uf == selectedUf && result.value.city == selectedUf
        && (result.value.latitude, result.value.longitude) == Coordinates(selectedPosition)
        && result.value.items == selectedItems
    {
      if selectedPosition.LatLng? {
        return Failure(PositionNotIterable);
      }
      var data := SubmitIntended();
      result := Success(data);
    }

    /** The submit handler with the position read by its coordinates, whichever
      * form it is stored in: it always builds a body. Its `city` still carries
      * the chosen state, not the chosen city, as the handler does; `selectedCity`
      * is never read. Nothing in state changes. */
    method SubmitIntended() returns (data: PointData)
      requires Valid()
      ensures NoDuplicates(data.items)
      ensures data.name == formData.name && data.email == formData.email
      ensures data.whatsapp == formData.whatsapp
      ensures data.uf == selectedUf && data.city == selectedUf
      ensures (data.latitude, data.longitude) == Coordinates(selectedPosition)
      ensures data.items == selectedItems
    {
      var uf := selectedUf;
      var city := selectedUf;
      var (latitude, longitude) := Coordinates(selectedPosition);
      data := PointData(formData.name, formData.email, formData.whatsapp,
                        uf, city, latitude, longitude, selectedItems);
    }
  }

  /** A session without a drag: the handler as written posts the default
    * centre, and `city` is the chosen state "PE", not the chosen city "Recife". */
  method FillAndSubmit() returns (result: Result<PointData, SubmitError>)
    ensures result == Success(PointData("Foo", "f@x.com", "123", "PE", "PE",
                                        -8.2648232, -35.9896734, [1, 3]))
  {
    var form := new CreatePointForm();
    form.InputChange("name", "Foo");
    form.InputChange("email", "f@x.com");
    form.InputChange("whatsapp", "123");
    var request := form.SelectUf("PE");
    form.ReceiveCities([CityResponse("Recife"), CityResponse("Olinda")]);
    form.SelectCity("Recife");
    form.SelectItem(1);
    form.SelectItem(3);
    result := form.Submit();
    assert result.value.items == [1, 3];
  }

  /** A geolocation answer followed by a submit: the handler as written posts
    * the starting centre, not the device's coordinates. */
  method GeoThenSubmit(latitude: real, longitude: real) returns (result: Result<PointData, SubmitError>)
    ensures result.Success?
    ensures (result.value.latitude, result.value.longitude) == (-8.2648232, -35.9896734)
  {
    var form := new CreatePointForm();
    form.ReceivePosition(latitude, longitude);
    result := form.Submit();
  }

  /** Any drag followed by a submit: the handler as written throws before posting. */
  method DragThenSubmit(marker: (real, real)) returns (result: Result<PointData, SubmitError>)
    ensures result == Failure(PositionNotIterable)
  {
    var form := new CreatePointForm();
    form.DragEnd(Some(marker));
    result := form.Submit();
    assert result.error.PositionNotIterable?;
  }

  /** The same drag with the corrected handler: the dragged coordinates are posted. */
  method DragThenSubmitIntended(marker: (real, real)) returns (data: PointData)
    ensures (data.latitude, data.longitude) == marker
  {
    var form := new CreatePointForm();
    form.DragEnd(Some(marker));
    data := form.SubmitIntended();
  }

  /** Two quick state changes whose answers arrive out of order: the answer for
    * the earlier state arrives last and is the one shown, next to the later state. */
  method StaleCitiesResponse() returns (uf: string, cities: seq<string>)
    ensures uf == "SP" && cities == ["Recife"]
  {
    var form := new CreatePointForm();
    var first := form.SelectUf("PE");
    var second := form.SelectUf("SP");
    form.ReceiveCities([CityResponse("Campinas")]);
    form.ReceiveCities([CityResponse("Recife")]);
    uf, cities := form.selectedUf, form.cities;
  }
}
