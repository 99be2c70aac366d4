/**
 * The state of the campus-map view and the handlers that change it: the
 * POI list, the sidebar's search and filters, the selected POI, the user's
 * location, the directions view, and click-to-place creation of new POIs.
 */
module MapView {
  import opened Options
  import opened Places
  import opened PoiFilter
  import SeedPois

  /** Where the map is centred and how far it is zoomed in. */
  datatype Viewport = Viewport(center: Coord, zoom: nat)

  /** A toast shown to the user. */
  datatype Notice = Notice(title: string, description: string, destructive: bool)

  /** What the one-shot geolocation request reported. */
  datatype GeolocationOutcome =
    | Position(coords: Coord)  // the success callback, with the device's coordinates
    | PositionError            // the error callback, e.g. permission denied
    | Unsupported              // the browser has no geolocation API

  /** The campus centre, used as the user's location when the device's is unavailable. */
  const FallbackLocation := Coord(0.3475, 32.5823)
  /** The view set up when the map is created. */
  const InitialView := Viewport(Coord(0.3476, 32.5825), 18)
  /** Zoom used when centring on a POI and on the user. */
  const PoiZoom := 19
  const UserZoom := 18

  const LocationFallbackNotice := Notice("Location", "Using campus center as starting point for directions", false)
  const LocationUnavailableNotice := Notice("Error", "Your location is not available", true)
  const MyLocationUnavailableNotice := Notice("Location", "Your location is not available.", false)

  /** What the creation dialog's fields hold. */
  datatype PoiForm = PoiForm(name: string, description: string, category: Category)

  /** The creation form as it is first shown and after each successful submission. */
  const EmptyForm := PoiForm("", "", Services)

  /** The POI a submitted form describes, placed at `at`, with both flags off. */
  function NewPoi(id: string, form: PoiForm, at: Coord): POI
  {
    POI(id, form.name, form.category, at, form.description, false, false, None, None)
  }

  /** A snapshot of every field of the view, used to say what a handler leaves unchanged. */
  datatype ViewState = ViewState(
    pois: seq<POI>,
    searchTerm: string,
    selectedCategory: CategoryFilter,
    showEssentialsOnly: bool,
    showAccessibleOnly: bool,
    selectedPoi: Option<POI>,
    userLocation: Option<Coord>,
    showDirections: bool,
    directionsDestination: Option<POI>,
    isPlacingMarker: bool,
    newPoiCoords: Option<Coord>,
    isAddMarkerDialogOpen: bool,
    form: PoiForm,
    hasRoutingControl: bool,
    viewport: Option<Viewport>,
    notices: seq<Notice>)

  /**
   * The POIs a view state lists in the sidebar and draws as markers: the
   * filter applied to the POI list with the sidebar's current criteria.
   */
  function Shown(st: ViewState): seq<POI>
  {
    Filter(st.pois, st.searchTerm, st.selectedCategory, st.showEssentialsOnly, st.showAccessibleOnly)
  }

  /**
   * The state the view starts in: the seed POIs, an empty search, every
   * category, no flag filters, nothing selected, no location yet, no
   * directions, no pending POI, an empty form defaulting to Services, no
   * routing control, no map yet and no notices.
   */
  function InitialState(): ViewState
  {
    ViewState(SeedPois.InitialPois(), "", AllCategories, false, false,
              None, None, false, None,
              false, None, false,
              EmptyForm,
              false, None, [])
  }

  /** Initially nothing is filtered out: the sidebar lists every seed POI, in order. */
  lemma InitialStateShowsAll()
    ensures Shown(InitialState()) == SeedPois.InitialPois()
  {
    FilterWithoutCriteria(SeedPois.InitialPois());
  }

  /**
   * The state after submitting a complete creation form: the POI the form
   * describes is appended, the dialog is closed and the form is reset.
   */
  function AddedPoi(st: ViewState, id: string): ViewState
    requires st.newPoiCoords.Some?
  {
    st.(pois := st.pois + [NewPoi(id, st.form, st.newPoiCoords.value)],
        isAddMarkerDialogOpen := false,
        form := EmptyForm,
        newPoiCoords := None)
  }

  /**
   * Adding a POI never disturbs what is already listed: the list gains the
   * new POI at its end exactly when the POI passes the current filters.
   */
  lemma AddedPoiShown(st: ViewState, id: string)
    requires st.newPoiCoords.Some?
    ensures var added := NewPoi(id, st.form, st.newPoiCoords.value);
      Shown(AddedPoi(st, id)) == Shown(st)
        + (if Matches(added, st.searchTerm, st.selectedCategory, st.showEssentialsOnly, st.showAccessibleOnly) then [added] else [])
  {
    var added := NewPoi(id, st.form, st.newPoiCoords.value);
    FilterAppend(st.pois, added, st.searchTerm, st.selectedCategory, st.showEssentialsOnly, st.showAccessibleOnly);
  }

  class CampusMap {
    var pois: seq<POI>
    var searchTerm: string
    var selectedCategory: CategoryFilter
    var showEssentialsOnly: bool
    var showAccessibleOnly: bool
    var selectedPoi: Option<POI>
    var userLocation: Option<Coord>
    var showDirections: bool
    var directionsDestination: Option<POI>
    var isPlacingMarker: bool
    var newPoiCoords: Option<Coord>
    var isAddMarkerDialogOpen: bool
    /** The creation dialog's name, description and category fields. */
    var form: PoiForm
    /** Whether a routing control is attached to the map. */
    var hasRoutingControl: bool
    /** The map instance: None until the map has been created. */
    var viewport: Option<Viewport>
    /** The toasts raised so far, oldest first. */
    var notices: seq<Notice>

    ghost function State(): ViewState
      reads this
    {
      ViewState(pois, searchTerm, selectedCategory, showEssentialsOnly, showAccessibleOnly,
                selectedPoi, userLocation, showDirections, directionsDestination,
                isPlacingMarker, newPoiCoords, isAddMarkerDialogOpen,
                form,
                hasRoutingControl, viewport, notices)
    }

    /**
     * The directions view is only ever requested for a known destination
     * and a known user location, and the creation dialog only opens with
     * a pending location for the new POI.
     */
    ghost predicate Valid()
      reads this
    {
      && (showDirections ==> directionsDestination.Some? && userLocation.Some?)
      && (isAddMarkerDialogOpen ==> newPoiCoords.Some?)
    }

    /**
     * The render guard: the component shows the directions view instead of
     * the map when directions are on and both ends are known. In every
     * reachable state that is just `showDirections`.
     */
    function ShowsDirectionsView(): (shown: bool)
      reads this
      ensures shown ==> showDirections && userLocation.Some? && directionsDestination.Some?
      ensures Valid() ==> (shown <==> showDirections)
    {
      showDirections && directionsDestination.Some? && userLocation.Some?
    }

    /** The component's initial state. */
    constructor ()
      ensures Valid()
      ensures State() == InitialState()
    {
      pois := SeedPois.InitialPois();
      searchTerm := "";
      selectedCategory := AllCategories;
      showEssentialsOnly := false;
      showAccessibleOnly := false;
      selectedPoi := None;
      userLocation := None;
      showDirections := false;
      directionsDestination := None;
      isPlacingMarker := false;
      newPoiCoords := None;
      isAddMarkerDialogOpen := false;
      form := EmptyForm;
      hasRoutingControl := false;
      viewport := None;
      notices := [];
    }

    /** Mount: creates the map at the initial view, unless there is no element to mount it on. */
    method MountMap(hasMountTarget: bool)
      requires Valid()
      modifies this
      ensures Valid()
      ensures hasMountTarget ==> State() == old(State()).(viewport := Some(InitialView))
      ensures !hasMountTarget ==> State() == old(State())
    {
      if hasMountTarget {
        viewport := Some(InitialView);
      }
    }

    /**
     * The geolocation outcome: the device's coordinates on success, the
     * campus centre otherwise. Only the error callback raises a notice.
     * The location is requested once, when the map is created, and is
     * reported once, so it is only ever set while still unknown.
     */
    method ResolveGeolocation(outcome: GeolocationOutcome)
      requires Valid()
      requires userLocation.None? && viewport.Some?
      modifies this
      ensures Valid()
      ensures userLocation == Some(if outcome.Position? then outcome.coords else FallbackLocation)
      ensures notices == old(notices) + (if outcome.PositionError? then [LocationFallbackNotice] else [])
      ensures State() == old(State()).(userLocation := userLocation, notices := notices)
    {
      match outcome {
        case Position(coords) =>
          userLocation := Some(coords);
        case PositionError =>
          userLocation := Some(FallbackLocation);
          notices := notices + [LocationFallbackNotice];
        case Unsupported =>
          userLocation := Some(FallbackLocation);
      }
    }

    /** Typing in the search box. */
    method SetSearchTerm(term: string)
      requires Valid()
      modifies this
      ensures Valid()
      ensures State() == old(State()).(searchTerm := term)
    {
      searchTerm := term;
    }

    /**
     * Clicking a category button. Narrowing from "all" to one category can
     * only drop POIs from the list, and every POI left has that category.
     */
    method SetCategory(category: CategoryFilter)
      requires Valid()
      modifies this
      ensures Valid()
      ensures State() == old(State()).(selectedCategory := category)
      ensures old(selectedCategory) == AllCategories ==> IsSubsequence(Shown(State()), Shown(old(State())))
      ensures category.OnlyCategory? ==> forall p :: p in Shown(State()) ==> p.category == category.category
    {
      FilterNarrowing(pois, searchTerm, AllCategories, showEssentialsOnly, showAccessibleOnly,
                      category, showEssentialsOnly, showAccessibleOnly);
      selectedCategory := category;
    }

    /**
     * The "First-Year Essentials" button. Switching it on can only drop POIs
     * from the list and leaves only essential ones; switching it off can only add.
     */
    method ToggleEssentialsOnly()
      requires Valid()
      modifies this
      ensures Valid()
      ensures State() == old(State()).(showEssentialsOnly := !old(showEssentialsOnly))
      ensures showEssentialsOnly ==> IsSubsequence(Shown(State()), Shown(old(State())))
      ensures showEssentialsOnly ==> forall p :: p in Shown(State()) ==> p.isEssential
      ensures !showEssentialsOnly ==> IsSubsequence(Shown(old(State())), Shown(State()))
    {
      FilterNarrowing(pois, searchTerm, selectedCategory, false, showAccessibleOnly,
                      selectedCategory, true, showAccessibleOnly);
      showEssentialsOnly := !showEssentialsOnly;
    }

    /**
     * The "Accessible Only" button. Switching it on can only drop POIs from
     * the list and leaves only accessible ones; switching it off can only add.
     */
    method ToggleAccessibleOnly()
      requires Valid()
      modifies this
      ensures Valid()
      ensures State() == old(State()).(showAccessibleOnly := !old(showAccessibleOnly))
      ensures showAccessibleOnly ==> IsSubsequence(Shown(State()), Shown(old(State())))
      ensures showAccessibleOnly ==> forall p :: p in Shown(State()) ==> p.isAccessible
      ensures !showAccessibleOnly ==> IsSubsequence(Shown(old(State())), Shown(State()))
    {
      FilterNarrowing(pois, searchTerm, selectedCategory, showEssentialsOnly, false,
                      selectedCategory, showEssentialsOnly, true);
      showAccessibleOnly := !showAccessibleOnly;
    }

    /** The "Add New Location" / "Cancel Placement" button flips placement mode. */
    method TogglePlacingMarker()
      requires Valid()
      modifies this
      ensures Valid()
      ensures State() == old(State()).(isPlacingMarker := !old(isPlacingMarker))
    {
      isPlacingMarker := !isPlacingMarker;
    }

    /**
     * A click on the map. While placing, it records the clicked location
     * for the new POI, opens the creation dialog and ends placement mode,
     * so one placement takes one click; otherwise it changes nothing.
     * Clicks are only listened for on a map that has been created.
     */
    method HandleMapClick(at: Coord)
      requires Valid()
      requires viewport.Some?
      modifies this
      ensures Valid()
      ensures old(isPlacingMarker) ==>
        State() == old(State()).(newPoiCoords := Some(at), isAddMarkerDialogOpen := true, isPlacingMarker := false)
      ensures !old(isPlacingMarker) ==> State() == old(State())
    {
      if isPlacingMarker {
        newPoiCoords := Some(at);
        isAddMarkerDialogOpen := true;
        isPlacingMarker := false;
      }
    }

    /** Typing the new POI's name. */
    method SetNewPoiName(name: string)
      requires Valid()
      modifies this
      ensures Valid()
      ensures State() == old(State()).(form := old(form).(name := name))
    {
      form := form.(name := name);
    }

    /** Typing the new POI's description. */
    method SetNewPoiDescription(description: string)
      requires Valid()
      modifies this
      ensures Valid()
      ensures State() == old(State()).(form := old(form).(description := description))
    {
      form := form.(description := description);
    }

    /** Choosing the new POI's category. */
    method SetNewPoiCategory(category: Category)
      requires Valid()
      modifies this
      ensures Valid()
      ensures State() == old(State()).(form := old(form).(category := category))
    {
      form := form.(category := category);
    }

    /** The dialog's Cancel button: drops the pending location and closes the dialog. */
    method CancelAddPoi()
      requires Valid()
      modifies this
      ensures Valid()
      ensures State() == old(State()).(newPoiCoords := None, isAddMarkerDialogOpen := false)
    {
      newPoiCoords := None;
      isAddMarkerDialogOpen := false;
    }

    /** The dialog closed any other way (Escape, a click outside): only the dialog flag changes. */
    method CloseAddDialog()
      requires Valid()
      modifies this
      ensures Valid()
      ensures State() == old(State()).(isAddMarkerDialogOpen := false)
    {
      isAddMarkerDialogOpen := false;
    }

    /**
     * Submitting the creation form. Without a pending location or with an
     * empty name nothing happens. Otherwise exactly one POI, built from the
     * form and the pending location with both flags off, is appended after
     * the existing ones; the dialog closes and the form is reset. Since the
     * dialog is only open with a pending location, submitting it open with
     * a name always adds a POI.
     */
    method HandleAddPoi(id: string)
      requires Valid()
      modifies this
      ensures Valid()
      ensures old(newPoiCoords).None? || old(form).name == "" ==> State() == old(State())
      ensures old(newPoiCoords).Some? && old(form).name != "" ==>
        State() == AddedPoi(old(State()), id)
      ensures old(isAddMarkerDialogOpen) && old(form).name != "" ==> |pois| == |old(pois)| + 1
    {
      if newPoiCoords.Some? && form.name != "" {
        pois := pois + [NewPoi(id, form, newPoiCoords.value)];
        isAddMarkerDialogOpen, form, newPoiCoords := false, EmptyForm, None;
      }
    }

    /** A click on a POI's marker selects it. */
    method SelectPoi(poi: POI)
      requires Valid()
      modifies this
      ensures Valid()
      ensures State() == old(State()).(selectedPoi := Some(poi))
    {
      selectedPoi := Some(poi);
    }

    /** The close button of the selected-POI card. */
    method ClearSelection()
      requires Valid()
      modifies this
      ensures Valid()
      ensures State() == old(State()).(selectedPoi := None)
    {
      selectedPoi := None;
    }

    /**
     * A click on a POI in the sidebar list. Before the map exists it does
     * nothing. Otherwise it removes any routing control, and with it turns
     * directions off, then centres the map on the POI and selects it.
     */
    method NavigateTo(poi: POI)
      requires Valid()
      modifies this
      ensures Valid()
      ensures old(viewport).None? ==> State() == old(State())
      ensures old(viewport).Some? ==>
        State() == old(State()).(hasRoutingControl := false,
                                 showDirections := old(showDirections) && !old(hasRoutingControl),
                                 viewport := Some(Viewport(poi.coordinates, PoiZoom)),
                                 selectedPoi := Some(poi))
    {
      if viewport.Some? {
        RemoveRoutingControl();
        viewport, selectedPoi := Some(Viewport(poi.coordinates, PoiZoom)), Some(poi);
      }
    }

    /** Detaches the routing control, if one is attached, and then turns directions off. */
    method RemoveRoutingControl()
      requires Valid()
      modifies this
      ensures Valid()
      ensures old(hasRoutingControl) ==> State() == old(State()).(hasRoutingControl := false, showDirections := false)
      ensures !old(hasRoutingControl) ==> State() == old(State())
    {
      if hasRoutingControl {
        hasRoutingControl, showDirections := false, false;
      }
    }

    /**
     * The selected card's "Get Directions" button. Without a user location
     * it only raises an error notice; directions, destination and selection
     * stay as they were. With one, it targets the POI, turns directions on
     * and clears the selection. Either way, the directions view is shown
     * afterwards exactly when the user's location was known.
     */
    method HandleGetDirections(poi: POI)
      requires Valid()
      modifies this
      ensures Valid()
      ensures old(userLocation).None? ==>
        State() == old(State()).(notices := old(notices) + [LocationUnavailableNotice])
      ensures old(userLocation).Some? ==>
        State() == old(State()).(directionsDestination := Some(poi), showDirections := true, selectedPoi := None)
      ensures ShowsDirectionsView() <==> old(userLocation).Some?
    {
      if userLocation.None? {
        notices := notices + [LocationUnavailableNotice];
        return;
      }
      directionsDestination := Some(poi);
      showDirections := true;
      selectedPoi := None;
    }

    /** The directions view's back button: turns directions off and forgets the destination. */
    method HandleBackFromDirections()
      requires Valid()
      modifies this
      ensures Valid()
      ensures State() == old(State()).(showDirections := false, directionsDestination := None)
      ensures !ShowsDirectionsView()
    {
      showDirections := false;
      directionsDestination := None;
    }

    /**
     * The "My Location" button: centres the map on the user when both the
     * location and the map exist, and otherwise raises a notice.
     */
    method HandleMyLocationClick()
      requires Valid()
      modifies this
      ensures Valid()
      ensures old(userLocation).Some? && old(viewport).Some? ==>
        State() == old(State()).(viewport := Some(Viewport(old(userLocation).value, UserZoom)))
      ensures old(userLocation).None? || old(viewport).None? ==>
        State() == old(State()).(notices := old(notices) + [MyLocationUnavailableNotice])
    {
      if userLocation.Some? && viewport.Some? {
        viewport := Some(Viewport(userLocation.value, UserZoom));
      } else {
        notices := notices + [MyLocationUnavailableNotice];
      }
    }
  }
}
