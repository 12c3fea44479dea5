/** The environmental dashboard page (app/Mainmaps/page.tsx) as one state
    object.  Each React handler or effect that changes page state is a method;
    network responses, the map becoming ready and geolocation fixes are the
    methods' parameters.  Map overlays are objects whose `onMap` flag stands
    for `setMap(map)` / `setMap(null)` and whose radius the slider changes in
    place. */
module Dashboard {
  import opened Options
  import opened Aqi
  import opened Trees
  import opened Cities

  /** The fields of a WAQI feed response that the page reads. */
  datatype WaqiReading = WaqiReading(status: string, aqi: real, dominantPollutant: string, updated: string)

  /** The fields of a WeatherAPI response that the page forwards. */
  datatype Weather = Weather(tempC: real, precipMm: real)

  /** The field of a SoilGrids classification response that the page forwards. */
  datatype Soil = Soil(wrbClassName: string)

  /** The body of the POST to the prediction service. */
  datatype Payload = Payload(temperature: real, precipitation: real, aqi: real, soilType: string,
                             latitude: real, longitude: real)

  /** How the POST to the prediction service ended: a parsed response, or a
      network error / non-2xx status. */
  datatype Prediction = Predicted(recommendedTrees: seq<Tree>, optimumTree: Tree) | PredictionFailed

  datatype LatLng = LatLng(lat: real, lng: real)

  /** What place autocomplete hands over: an optional name and an optional
      geometry location. */
  datatype Place = Place(name: Option<string>, location: Option<LatLng>)

  const YourLocation: string := "Your Location"
  const SelectedLocation: string := "Selected Location"
  const DefaultRadius: int := 10000

  /** What a callback created in some render closes over: that render's
      selected city, circle radius, markers and circles. */
  datatype Captured = Captured(city: City, radius: int, markers: seq<Marker>, circles: seq<Circle>)

  /** What the "Use My Location" callback of the render in which the button
      was clicked closes over: whether that render had a map, and its
      markers. */
  datatype LocationRequest = LocationRequest(hadMap: bool, markers: seq<Marker>)

  /** An air-quality reading the page may act on: present, with status "ok". */
  predicate Usable(r: Option<WaqiReading>)
  {
    r.Some? && r.value.status == "ok"
  }

  /** The gate and payload of `fetchTreeRecommendations`: a request is made
      only when all three readings are present and the air-quality status is
      "ok"; it copies the readings and the selected city's coordinates. */
  function RecommendationRequest(weather: Option<Weather>, waqi: Option<WaqiReading>,
                                 soil: Option<Soil>, city: City): (p: Option<Payload>)
    ensures p.Some? <==> weather.Some? && Usable(waqi) && soil.Some?
    ensures p.Some? ==>
              && p.value.temperature == weather.value.tempC
              && p.value.precipitation == weather.value.precipMm
              && p.value.aqi == waqi.value.aqi
              && p.value.soilType == soil.value.wrbClassName
              && p.value.latitude == city.lat && p.value.longitude == city.lng
  {
    if weather.None? || waqi.None? || soil.None? || waqi.value.status != "ok" then None
    else Some(Payload(weather.value.tempC, weather.value.precipMm, waqi.value.aqi,
                      soil.value.wrbClassName, city.lat, city.lng))
  }

  /** `place.name || "Selected Location"`: a missing or empty name is falsy. */
  function PlaceLabel(name: Option<string>): (text: string)
    ensures text != []
    ensures name.Some? && name.value != [] ==> text == name.value
    ensures name.None? || name.value == [] ==> text == SelectedLocation
  {
    match name
    case Some(n) => if n != [] then n else SelectedLocation
    case None => SelectedLocation
  }

  /** The list the recommendation grid shows. */
  function DisplayedTrees(recommendations: seq<Tree>): (shown: seq<Tree>)
    ensures shown != []
    ensures recommendations != [] ==> shown == recommendations
    ensures recommendations == [] ==> shown == SampleTrees
  {
    if |recommendations| > 0 then recommendations else SampleTrees
  }

  /** A map circle; `onMap` is false once `setMap(null)` removed it. */
  class Circle {
    var color: string
    var radius: int
    var onMap: bool

    constructor (color: string, radius: int)
      ensures this.color == color && this.radius == radius && onMap
    {
      this.color := color;
      this.radius := radius;
      onMap := true;
    }
  }

  /** A map marker; `onMap` is false once `setMap(null)` removed it. */
  class Marker {
    const title: string
    var onMap: bool

    constructor (title: string)
      ensures this.title == title && onMap
    {
      this.title := title;
      onMap := true;
    }
  }

  /** `markers.forEach(marker => marker.setMap(null))`. */
  method HideMarkers(ms: seq<Marker>)
    modifies ms
    ensures forall m :: m in ms ==> !m.onMap
  {
    for i := 0 to |ms|
      invariant forall j :: 0 <= j < i ==> !ms[j].onMap
    {
      ms[i].onMap := false;
    }
  }

  /** `circles.forEach(circle => circle.setMap(null))`. */
  method HideCircles(cs: seq<Circle>)
    modifies cs
    ensures forall c :: c in cs ==> !c.onMap && c.radius == old(c.radius) && c.color == old(c.color)
  {
    for i := 0 to |cs|
      invariant forall j :: 0 <= j < i ==> !cs[j].onMap
      invariant forall c :: c in cs ==> c.radius == old(c.radius) && c.color == old(c.color)
    {
      cs[i].onMap := false;
    }
  }

  /** `circles.forEach(circle => circle.setRadius(r))`. */
  method SetRadii(cs: seq<Circle>, r: int)
    modifies cs
    ensures forall c :: c in cs ==> c.radius == r && c.color == old(c.color) && c.onMap == old(c.onMap)
  {
    for i := 0 to |cs|
      invariant forall j :: 0 <= j < i ==> cs[j].radius == r
      invariant forall c :: c in cs ==> c.color == old(c.color) && c.onMap == old(c.onMap)
    {
      cs[i].radius := r;
    }
  }

  class DashboardPage {
    var selectedCity: City
    var searchTerm: string
    var filteredCities: seq<City>
    var showDropdown: bool
    var userLocation: Option<LatLng>
    var isLoadingLocation: bool
    var waqiData: Option<WaqiReading>
    var weatherData: Option<Weather>
    var isLoadingWeather: bool
    var soilData: Option<Soil>
    var treeRecommendations: seq<Tree>
    var optimumTree: Option<Tree>
    var isLoadingRecommendations: bool
    var mapReady: bool
    var markers: seq<Marker>
    var circles: seq<Circle>
    var circleRadius: int
    /** What `fetchWaqiData`, memoized on the map alone, closes over. */
    var callback: Captured
    /** What the pending geolocation success callback closes over. */
    var locationRequest: LocationRequest

    /** The page invariant on the dropdown: its list is the filter of the
        search term.  It reads those two fields only, so every handler whose
        frame leaves them alone keeps it; the constructor, OnSearchInput and
        OnPickCity, which write them, each ensure it. */
    ghost predicate Listed()
      reads this`searchTerm, this`filteredCities
    {
      filteredCities == FilterCities(searchTerm)
    }

    /** The page invariant on the map: at most one marker and one circle
        exist; a pending location request saw a map only if there is one;
        circles exist only on a map and every one of them is shown with the
        slider's radius. */
    ghost predicate Valid()
      reads this, circles
    {
      && |markers| <= 1 && |circles| <= 1
      && (locationRequest.hadMap ==> mapReady)
      && (circles != [] ==> mapReady)
      && (forall c :: c in circles ==> c.onMap && c.radius == circleRadius)
    }

    /** The overlays `displayWaqiOnMap` leaves for a reading drawn at `city`
        with `radius`: one circle coloured by the AQI and one marker titled
        with the city for an "ok" reading, nothing otherwise. */
    ghost predicate ShowsReading(r: WaqiReading, city: City, radius: int)
      reads this, circles, markers
    {
      if r.status == "ok" then
        && |circles| == 1 && |markers| == 1
        && circles[0].color == AqiColor(r.aqi) && circles[0].radius == radius && circles[0].onMap
        && markers[0].title == city.name && markers[0].onMap
      else
        circles == [] && markers == []
    }

    /** The state the page would capture now. */
    function Current(): Captured
      reads this
    {
      Captured(selectedCity, circleRadius, markers, circles)
    }

    /** The initial `useState` values. */
    constructor ()
      ensures Valid() && Listed()
      ensures selectedCity == DefaultCity && searchTerm == [] && filteredCities == AllCities
      ensures !showDropdown && userLocation.None? && !isLoadingLocation
      ensures waqiData.None? && weatherData.None? && !isLoadingWeather && soilData.None?
      ensures treeRecommendations == [] && optimumTree.None? && !isLoadingRecommendations
      ensures !mapReady && markers == [] && circles == [] && circleRadius == DefaultRadius
      ensures callback == Current()
    {
      BlankTermListsAll([]);
      selectedCity := DefaultCity;
      searchTerm := [];
      filteredCities := AllCities;
      showDropdown := false;
      userLocation := None;
      isLoadingLocation := false;
      waqiData := None;
      weatherData := None;
      isLoadingWeather := false;
      soilData := None;
      treeRecommendations := [];
      optimumTree := None;
      isLoadingRecommendations := false;
      mapReady := false;
      markers := [];
      circles := [];
      circleRadius := DefaultRadius;
      callback := Captured(DefaultCity, DefaultRadius, [], []);
      locationRequest := LocationRequest(false, []);
    }

    /** The map has been created (`setMap(newMap)`); the WAQI callback is
        re-created over the current state. */
    method OnMapReady()
      requires Valid()
      modifies this`mapReady, this`callback
      ensures Valid() && mapReady && callback == Current()
    {
      mapReady := true;
      callback := Current();
    }

    /** `setSelectedCity`.  A new selection re-creates the map, and with it
        the WAQI callback, which then closes over the current state; without a
        map nothing is re-created. */
    method SelectCity(city: City)
      requires Valid()
      modifies this`selectedCity, this`callback
      ensures Valid() && selectedCity == city
      ensures mapReady ==> callback == Current()
      ensures !mapReady ==> callback == old(callback)
    {
      selectedCity := city;
      if mapReady {
        callback := Current();
      }
    }

    /** `setSearchTerm` followed by the effect that refilters the list. */
    method SetSearchTerm(term: string)
      modifies this`searchTerm, this`filteredCities
      ensures Listed()
      ensures searchTerm == term && filteredCities == FilterCities(term)
    {
      searchTerm := term;
      filteredCities := FilterCities(term);
    }

    /** The search term becomes a city's name; a city of the list is then
        listed. */
    method ListCity(city: City)
      requires Valid()
      modifies this`searchTerm, this`filteredCities
      ensures Valid()
      ensures Listed() && searchTerm == city.name
      ensures city in AllCities ==> city in filteredCities
    {
      OwnNameListed(city);
      SetSearchTerm(city.name);
    }

    /** Typing in the search box, followed by the filter effect. */
    method OnSearchInput(term: string)
      requires Valid()
      modifies this`searchTerm, this`showDropdown, this`filteredCities
      ensures Valid() && Listed()
      ensures searchTerm == term && showDropdown && filteredCities == FilterCities(term)
    {
      SetSearchTerm(term);
      showDropdown := true;
    }

    /** Focusing the search box opens the dropdown. */
    method OnSearchFocus()
      requires Valid()
      modifies this`showDropdown
      ensures Valid() && showDropdown
    {
      showDropdown := true;
    }

    /** A click outside the dropdown closes it. */
    method OnClickOutside()
      requires Valid()
      modifies this`showDropdown
      ensures Valid() && !showDropdown
    {
      showDropdown := false;
    }

    /** Picking a city from the dropdown: it becomes the selected city, its
        name the search term, and the dropdown closes; a listed city stays
        listed. */
    method OnPickCity(city: City)
      requires Valid()
      modifies this`selectedCity, this`searchTerm, this`showDropdown, this`filteredCities
      modifies this`callback
      ensures Valid() && Listed()
      ensures selectedCity == city && searchTerm == city.name && !showDropdown
      ensures city in AllCities ==> city in filteredCities
      ensures mapReady ==> callback == Current()
      ensures !mapReady ==> callback == old(callback)
    {
      ListCity(city);
      OnClickOutside();
      SelectCity(city);
    }

    /** The autocomplete `place_changed` listener: a place without a location
        is ignored; otherwise it is selected under its name, or under
        "Selected Location" when it has none. */
    method OnPlaceChanged(place: Place)
      requires Valid()
      modifies this`selectedCity, this`callback
      ensures Valid()
      ensures place.location.None? ==> selectedCity == old(selectedCity)
      ensures place.location.Some? ==>
                selectedCity == City(PlaceLabel(place.name), place.location.value.lat, place.location.value.lng)
      ensures place.location.Some? && mapReady ==> callback == Current()
      ensures place.location.None? || !mapReady ==> callback == old(callback)
    {
      if place.location.Some? {
        selectedCity := City(PlaceLabel(place.name), place.location.value.lat, place.location.value.lng);
        if mapReady {
          callback := Current();
        }
      }
    }

    /** The "Use My Location" button: nothing happens without geolocation
        support, otherwise a location request is pending.  `getUserLocation`
        is memoized on the map and the markers, so the success callback it
        hands to the browser keeps this render's map and markers. */
    method OnUseMyLocation(supported: bool)
      requires Valid()
      modifies this`isLoadingLocation, this`locationRequest
      ensures Valid()
      ensures supported ==> isLoadingLocation && locationRequest == LocationRequest(mapReady, markers)
      ensures !supported ==> isLoadingLocation == old(isLoadingLocation) && locationRequest == old(locationRequest)
    {
      if supported {
        isLoadingLocation := true;
        locationRequest := LocationRequest(mapReady, markers);
      }
    }

    /** A geolocation fix: the device position is selected as "Your
        Location".  The WAQI callback is re-created while the weather fetch
        is awaited, before the markers change.  Then, if the click-time render
        had a map, the markers of that render are removed and one marker for
        the position becomes the marker list; a marker drawn after the click
        is neither removed nor kept in the list. */
    method OnGeolocationFix(pos: LatLng)
      requires Valid()
      modifies this`userLocation, this`selectedCity, this`markers, this`isLoadingLocation
      modifies this`callback, locationRequest.markers
      ensures Valid()
      ensures mapReady ==> callback == Captured(selectedCity, circleRadius, old(markers), circles)
      ensures !mapReady ==> callback == old(callback)
      ensures userLocation == Some(pos) && selectedCity == City(YourLocation, pos.lat, pos.lng)
      ensures !isLoadingLocation
      ensures locationRequest.hadMap ==> forall m :: m in locationRequest.markers ==> !m.onMap
      ensures locationRequest.hadMap ==>
                |markers| == 1 && fresh(markers[0]) && markers[0].title == YourLocation && markers[0].onMap
      ensures !locationRequest.hadMap ==> markers == old(markers)
      ensures forall m :: m in old(markers) && m !in locationRequest.markers ==> m.onMap == old(m.onMap)
    {
      userLocation := Some(pos);
      selectedCity := City(YourLocation, pos.lat, pos.lng);
      if mapReady {
        callback := Current();
      }
      if locationRequest.hadMap {
        HideMarkers(locationRequest.markers);
        var userMarker := new Marker(YourLocation);
        markers := [userMarker];
      }
      isLoadingLocation := false;
    }

    /** The geolocation error callback. */
    method OnGeolocationError()
      requires Valid()
      modifies this`isLoadingLocation
      ensures Valid() && !isLoadingLocation
    {
      isLoadingLocation := false;
    }

    /** `displayWaqiOnMap` with what it closes over passed in: the city and
        radius to draw with and the overlays to clear.  Every overlay passed in
        is taken off the map; an "ok" reading then gets one new circle and one
        new marker, any other reading none. */
    method DisplayWaqiOnMap(r: WaqiReading, city: City, radius: int,
                            shownMarkers: seq<Marker>, shownCircles: seq<Circle>)
      modifies this`markers, this`circles, shownMarkers, shownCircles
      ensures ShowsReading(r, city, radius)
      ensures forall m :: m in shownMarkers ==> !m.onMap
      ensures forall c :: c in shownCircles ==> !c.onMap
      ensures forall c :: c in circles ==> fresh(c)
      ensures forall m :: m in markers ==> fresh(m)
    {
      HideMarkers(shownMarkers);
      HideCircles(shownCircles);
      markers := [];
      circles := [];
      if r.status == "ok" {
        var color := AqiColor(r.aqi);
        var cityCircle := new Circle(color, radius);
        circles := [cityCircle];
        var marker := new Marker(city.name);
        markers := [marker];
      }
    }

    /** The WAQI fetch completing, drawn from the current state: a failed
        fetch changes nothing; a response is stored and, for an "ok" status on
        a ready map, every previous overlay is removed and the reading is
        drawn at the selected city with the slider's radius. */
    method OnWaqiResponse(response: Option<WaqiReading>)
      requires Valid()
      modifies this`waqiData, this`markers, this`circles, markers, circles
      ensures Valid()
      ensures response.None? ==> waqiData == old(waqiData)
      ensures response.Some? ==> waqiData == response
      ensures mapReady && Usable(response) ==>
                && ShowsReading(response.value, selectedCity, circleRadius)
                && (forall m :: m in old(markers) ==> !m.onMap)
                && (forall c :: c in old(circles) ==> !c.onMap)
                && (forall c :: c in circles ==> fresh(c))
                && (forall m :: m in markers ==> fresh(m))
      ensures !(mapReady && Usable(response)) ==> markers == old(markers) && circles == old(circles)
      ensures !(mapReady && Usable(response)) ==>
                (forall c :: c in circles ==> c.onMap == old(c.onMap) && c.radius == old(c.radius) && c.color == old(c.color))
      ensures !(mapReady && Usable(response)) ==> (forall m :: m in markers ==> m.onMap == old(m.onMap))
    {
      if response.Some? {
        waqiData := response;
        if mapReady && response.value.status == "ok" {
          DrawCurrent(response.value);
        }
      }
    }

    /** Draws a reading with the selected city and radius of the current
        render, keeping the page's invariant. */
    method DrawCurrent(r: WaqiReading)
      requires Valid() && mapReady
      modifies this`markers, this`circles, markers, circles
      ensures Valid()
      ensures ShowsReading(r, selectedCity, circleRadius)
      ensures forall m :: m in old(markers) ==> !m.onMap
      ensures forall c :: c in old(circles) ==> !c.onMap
      ensures forall c :: c in circles ==> fresh(c)
      ensures forall m :: m in markers ==> fresh(m)
    {
      DisplayWaqiOnMap(r, selectedCity, circleRadius, markers, circles);
    }

    /** The WAQI fetch completing as written: `fetchWaqiData` is memoized on
        the map alone, so it draws with the city and radius, and clears the
        overlays, captured when the map was last set, whatever the slider or
        the overlays are now.  A stale draw leaves a circle whose radius is not
        the slider's, outside `Valid()`, so a trace through it ends there. */
    method OnWaqiResponseAsWritten(response: Option<WaqiReading>)
      modifies this`waqiData, this`markers, this`circles, callback.markers, callback.circles
      ensures response.None? ==> waqiData == old(waqiData)
      ensures response.Some? ==> waqiData == response
      ensures mapReady && Usable(response) ==>
                && ShowsReading(response.value, callback.city, callback.radius)
                && (forall m :: m in old(callback.markers) ==> !m.onMap)
                && (forall c :: c in old(callback.circles) ==> !c.onMap)
                && (forall c :: c in circles ==> fresh(c))
                && (forall m :: m in markers ==> fresh(m))
      ensures !(mapReady && Usable(response)) ==> markers == old(markers) && circles == old(circles)
      ensures !(mapReady && Usable(response)) ==>
                forall c :: c in old(callback.circles) ==>
                  c.onMap == old(c.onMap) && c.radius == old(c.radius) && c.color == old(c.color)
      ensures !(mapReady && Usable(response)) ==>
                forall m :: m in old(callback.markers) ==> m.onMap == old(m.onMap)
    {
      if response.Some? {
        waqiData := response;
        if mapReady && response.value.status == "ok" {
          DisplayWaqiOnMap(response.value, callback.city, callback.radius, callback.markers, callback.circles);
        }
      }
    }

    /** `fetchWeatherData` has started. */
    method OnWeatherRequested()
      requires Valid()
      modifies this`isLoadingWeather
      ensures Valid() && isLoadingWeather
    {
      isLoadingWeather := true;
    }

    /** `fetchWeatherData` has finished: a response replaces the stored one, a
        failure keeps it; loading ends either way. */
    method OnWeatherResponse(response: Option<Weather>)
      requires Valid()
      modifies this`weatherData, this`isLoadingWeather
      ensures Valid() && !isLoadingWeather
      ensures weatherData == if response.Some? then response else old(weatherData)
    {
      if response.Some? {
        weatherData := response;
      }
      isLoadingWeather := false;
    }

    /** `fetchSoilData` has finished: a response replaces the stored one, a
        failure keeps it. */
    method OnSoilResponse(response: Option<Soil>)
      requires Valid()
      modifies this`soilData
      ensures Valid()
      ensures soilData == if response.Some? then response else old(soilData)
    {
      if response.Some? {
        soilData := response;
      }
    }

    /** `fetchTreeRecommendations`, with the outcome of the POST supplied.
        Returns the request sent, if any.  Without all three readings nothing
        changes; on success the response's list and optimum are stored; on
        failure the built-in sample and its optimum are. */
    method FetchTreeRecommendations(outcome: Prediction) returns (request: Option<Payload>)
      requires Valid()
      modifies this`treeRecommendations, this`optimumTree, this`isLoadingRecommendations
      ensures Valid()
      ensures request == RecommendationRequest(weatherData, waqiData, soilData, selectedCity)
      ensures request.None? ==>
                && treeRecommendations == old(treeRecommendations)
                && optimumTree == old(optimumTree)
                && isLoadingRecommendations == old(isLoadingRecommendations)
      ensures request.Some? ==> !isLoadingRecommendations
      ensures request.Some? && outcome.Predicted? ==>
                treeRecommendations == outcome.recommendedTrees && optimumTree == Some(outcome.optimumTree)
      ensures request.Some? && outcome.PredictionFailed? ==>
                treeRecommendations == SampleTrees && optimumTree == Some(OptimumTree(SampleTrees))
    {
      if weatherData.None? || waqiData.None? || soilData.None? || waqiData.value.status != "ok" {
        return None;
      }
      isLoadingRecommendations := true;
      request := Some(Payload(weatherData.value.tempC, weatherData.value.precipMm, waqiData.value.aqi,
                              soilData.value.wrbClassName, selectedCity.lat, selectedCity.lng));
      match outcome {
        case Predicted(recommended, optimum) =>
          treeRecommendations := recommended;
          optimumTree := Some(optimum);
          isLoadingRecommendations := false;
        case PredictionFailed =>
          isLoadingRecommendations := false;
          treeRecommendations := SampleTrees;
          optimumTree := Some(OptimumTree(SampleTrees));
      }
    }

    /** The radius slider: the new radius is stored and, on a map, every
        existing circle is resized in place; no circle is added or removed. */
    method OnRadiusChange(newRadius: int)
      requires Valid()
      modifies this`circleRadius, circles
      ensures Valid() && circleRadius == newRadius
      ensures forall c :: c in circles ==> c.radius == newRadius && c.color == old(c.color) && c.onMap
    {
      circleRadius := newRadius;
      if mapReady && |circles| > 0 {
        SetRadii(circles, newRadius);
      }
    }
  }

  /** After a failed prediction the page shows the three sample trees with
      Neem as the optimum. */
  lemma FallbackShowsSample()
    ensures DisplayedTrees(SampleTrees) == SampleTrees
    ensures |DisplayedTrees(SampleTrees)| == 3
    ensures OptimumTree(SampleTrees).name == "Neem"
  {
    SampleOptimumIsNeem();
  }

  /** The slider moves while the first air-quality fetch is pending.  As
      written, the circle keeps the radius of the render that set the map
      while the slider shows the new one. */
  method StaleRadiusExample() returns (drawn: int, slider: int)
    ensures drawn == DefaultRadius && slider == 20000
  {
    var page := new DashboardPage();
    page.OnMapReady();
    page.OnRadiusChange(20000);
    page.OnWaqiResponseAsWritten(Some(WaqiReading("ok", 42.0, "pm25", "")));
    drawn := page.circles[0].radius;
    slider := page.circleRadius;
  }

  /** The same events with the reading drawn from the current state: the
      circle has the slider's radius. */
  method SelectedRadiusExample() returns (drawn: int, slider: int)
    ensures drawn == slider == 20000
  {
    var page := new DashboardPage();
    page.OnMapReady();
    page.OnRadiusChange(20000);
    page.OnWaqiResponse(Some(WaqiReading("ok", 42.0, "pm25", "")));
    drawn := page.circles[0].radius;
    slider := page.circleRadius;
  }

  /** A reading is drawn while a location request is pending.  The fix
      removes only the markers of the click-time render, so the reading's
      marker stays on the map but is no longer in the marker list, and no
      later redraw removes it. */
  method LeftoverMarkerExample() returns (shown: bool, listed: bool)
    ensures shown && !listed
  {
    var page := new DashboardPage();
    page.OnMapReady();
    page.OnUseMyLocation(true);
    page.OnWaqiResponse(Some(WaqiReading("ok", 42.0, "pm25", "")));
    var drawn := page.markers[0];
    page.OnGeolocationFix(LatLng(28.5, 77.2));
    shown := drawn.onMap;
    listed := drawn in page.markers;
  }
}
