/**
 * The `App` component's state and handlers: an integer `view` chooses the
 * screen, and handlers set `view`, the loaded list, the selected game, the
 * loading and error flags and the filters. An asynchronous handler is split
 * into the part that runs before its request (`Begin…`, which returns the
 * request) and the parts that run when the server answers (`…Succeeded`,
 * `RequestFailed`), with the server's answer as a parameter.
 */
module AppState {
  import opened JsValues
  import opened Games
  import opened LibraryQuery
  import opened Requests

  /** The screens `renderContent` chooses between. */
  datatype Screen = LibraryScreen | AddScreen | EditScreen | DetailScreen | StatsScreen | LoginScreen | RegisterScreen

  /** `switch (view)`: 1 to 6 name a screen; 0 and every other value show the library. */
  function ScreenOf(view: int): (s: Screen)
    ensures s == LibraryScreen <==> !(1 <= view <= 6)
  {
    match view
    case 1 => AddScreen
    case 2 => EditScreen
    case 3 => DetailScreen
    case 4 => StatsScreen
    case 5 => LoginScreen
    case 6 => RegisterScreen
    case _ => LibraryScreen
  }

  /** The `view` value that the handlers set for a screen. */
  function ViewCode(s: Screen): (v: int)
    ensures 0 <= v <= 6
  {
    match s
    case LibraryScreen => 0
    case AddScreen => 1
    case EditScreen => 2
    case DetailScreen => 3
    case StatsScreen => 4
    case LoginScreen => 5
    case RegisterScreen => 6
  }

  /** Each screen has one code, and the router shows that screen for it. */
  lemma ScreenCodeRoundTrip(s: Screen, v: int)
    ensures ScreenOf(ViewCode(s)) == s
    ensures 0 <= v <= 6 ==> ViewCode(ScreenOf(v)) == v
  {
  }

  /** `juegos.find(j => j._id === id)`: the first game with that id. */
  function FindGame(js: seq<Game>, id: string): (r: Option<Game>)
    ensures r.None? <==> forall i :: 0 <= i < |js| ==> js[i].id != id
    ensures r.Some? ==>
      exists i :: (0 <= i < |js| && js[i] == r.value && forall j :: 0 <= j < i ==> js[j].id != id)
    ensures r.Some? ==> r.value.id == id
  {
    if js == [] then None
    else if js[0].id == id then Some(js[0])
    else
      var r := FindGame(js[1..], id);
      if r.Some? then
        var i :| 0 <= i < |js[1..]| && js[1..][i] == r.value && (forall j :: 0 <= j < i ==> js[1..][j].id != id);
        assert js[i + 1] == r.value && forall j :: 0 <= j < i + 1 ==> js[j].id != id;
        r
      else
        assert forall i :: 0 < i < |js| ==> js[i] == js[1..][i - 1];
        r
  }

  /** What `handleViewDetails` receives: an id from the activity feed, or a game from a card. */
  datatype GameRef = ById(id: string) | ByObject(game: Game)

  /** `{ completado: !juego.completado }`: the update `handleToggleComplete` sends. */
  function TogglePayload(g: Game): (r: Record)
    ensures r.Keys == {"completado"} && r["completado"] == Bool(!g.completado)
  {
    map["completado" := Bool(!g.completado)]
  }

  /**
   * Merged into the game's record, the toggle payload gives the record of the
   * same game with `completado` flipped; a second toggle of that game sends
   * the original value back.
   */
  lemma TogglePayloadFlips(g: Game)
    ensures Spread(GameRecord(g), TogglePayload(g)) == GameRecord(g.(completado := !g.completado))
    ensures TogglePayload(g.(completado := !g.completado))["completado"] == Bool(g.completado)
  {
    GameRecordWithCompletado(g, !g.completado);
    SpreadOne(GameRecord(g), "completado", Bool(!g.completado));
  }

  /** `err.message` after a failed save: the server's `error` text, or the default for the operation. */
  function SaveErrorMessage(serverError: Option<string>, isEdit: bool): (m: string)
    ensures m != ""
    ensures serverError.Some? && serverError.value != "" ==> m == serverError.value
    ensures (serverError.None? || serverError.value == "") ==>
      m == if isEdit then "Error al actualizar juego" else "Error al agregar juego"
  {
    if serverError.Some? && serverError.value != "" then serverError.value
    else if isEdit then "Error al actualizar juego" else "Error al agregar juego"
  }

  /** `FormularioRegistro.handleSubmit`: a mismatch is rejected with an alert before anything else. */
  datatype RegistrationOutcome = Mismatch(alert: string) | Registered

  function RegistrationCheck(password: string, confirmPassword: string): (o: RegistrationOutcome)
    ensures o.Registered? <==> password == confirmPassword
    ensures o.Mismatch? ==> o.alert == "Las contraseñas no coinciden."
  {
    if password != confirmPassword then Mismatch("Las contraseñas no coinciden.") else Registered
  }

  /** The five filter controls of the library screen. */
  datatype FilterField = Search | Genre | Platform | Completion | SortOrder

  /** The position of a filter among `QueryKeys`. */
  function FieldIndex(field: FilterField): (i: nat)
    ensures i < |QueryKeys|
  {
    match field
    case Search => 0
    case Genre => 1
    case Platform => 2
    case Completion => 3
    case SortOrder => 4
  }

  /** `setSearchTerm`, `setFilterGenero`, …: one filter replaced, the others kept. */
  function WithFilter(f: Filters, field: FilterField, v: string): (r: Filters)
    ensures FilterValues(r)[FieldIndex(field)] == v
    ensures forall i :: 0 <= i < |QueryKeys| && i != FieldIndex(field) ==> FilterValues(r)[i] == FilterValues(f)[i]
  {
    match field
    case Search => f.(searchTerm := v)
    case Genre => f.(filterGenero := v)
    case Platform => f.(filterPlataforma := v)
    case Completion => f.(filterCompletado := v)
    case SortOrder => f.(ordenarPor := v)
  }

  /** The dependencies of the list-loading effect. */
  datatype EffectDeps = EffectDeps(view: int, filters: Filters, reviewUpdateTrigger: int)

  /** The effect re-runs when a dependency changed, and then fetches only on the library view. */
  predicate EffectFetches(before: EffectDeps, after: EffectDeps) {
    before != after && after.view == 0
  }

  /** What a render's `handleUpdateGame` closes over: the selection and the filters its `fetchJuegos` reads. */
  datatype UpdateClosure = UpdateClosure(juegoSeleccionado: Option<Game>, filters: Filters)

  class App {
    var view: int
    var juegos: seq<Game>
    var loading: bool
    var error: Option<string>
    var juegoSeleccionado: Option<Game>
    var filters: Filters
    var reviewUpdateTrigger: int

    /** The view is one of the seven codes, and the edit and detail screens always have a game to show. */
    ghost predicate Valid()
      reads this
    {
      0 <= view <= 6 && ((view == 2 || view == 3) ==> juegoSeleccionado.Some?)
    }

    function Deps(): EffectDeps
      reads this
    {
      EffectDeps(view, filters, reviewUpdateTrigger)
    }

    /** The initial state: the library, nothing loaded or selected, sorted by creation date. */
    constructor ()
      ensures Valid()
      ensures view == 0 && juegos == [] && !loading && error == None && juegoSeleccionado == None
      ensures filters == Filters("", "", "", "", "fechaCreacion") && reviewUpdateTrigger == 0
    {
      view := 0;
      juegos := [];
      loading := false;
      error := None;
      juegoSeleccionado := None;
      filters := Filters("", "", "", "", "fechaCreacion");
      reviewUpdateTrigger := 0;
    }

    /**
     * `fetchJuegos` up to its request: loading on, error cleared, the query
     * built from the filters of the render that defined this `fetchJuegos`.
     * The list-loading effect runs the current render's, so it passes the
     * current `filters`; a handler's closure may pass older ones.
     */
    method BeginFetch(rendered: Filters) returns (query: seq<Param>)
      requires Valid()
      modifies this
      ensures Valid()
      ensures query == NonEmptyPairs(QueryKeys, FilterValues(rendered))
      ensures loading && error == None
      ensures view == old(view) && juegos == old(juegos) && juegoSeleccionado == old(juegoSeleccionado)
      ensures filters == old(filters) && reviewUpdateTrigger == old(reviewUpdateTrigger)
    {
      loading := true;
      error := None;
      query := BuildQuery(rendered);
    }

    /** The list arrived: it replaces the loaded games. */
    method FetchSucceeded(data: seq<Game>)
      requires Valid()
      modifies this
      ensures Valid()
      ensures juegos == data && !loading
      ensures view == old(view) && error == old(error) && juegoSeleccionado == old(juegoSeleccionado)
      ensures filters == old(filters) && reviewUpdateTrigger == old(reviewUpdateTrigger)
    {
      juegos := data;
      loading := false;
    }

    /** Any request failed: its message is shown and loading ends; nothing else changes. */
    method RequestFailed(message: string)
      requires Valid()
      modifies this
      ensures Valid()
      ensures error == Some(message) && !loading
      ensures view == old(view) && juegos == old(juegos) && juegoSeleccionado == old(juegoSeleccionado)
      ensures filters == old(filters) && reviewUpdateTrigger == old(reviewUpdateTrigger)
    {
      error := Some(message);
      loading := false;
    }

    /**
     * `handleSaveJuego` up to its request. Only the forms of the add and edit
     * screens are given this handler, so it runs in view 1 or 2; the view it
     * closes over is returned with the request.
     */
    method BeginSaveGame(juegoData: Record, isEdit: bool) returns (req: Request, submitView: int)
      requires Valid() && (view == 1 || view == 2)
      modifies this
      ensures Valid()
      ensures req == SaveGameRequest(juegoData, isEdit)
      ensures submitView == old(view) && loading
      ensures view == old(view) && juegos == old(juegos) && error == old(error)
      ensures juegoSeleccionado == old(juegoSeleccionado)
      ensures filters == old(filters) && reviewUpdateTrigger == old(reviewUpdateTrigger)
    {
      loading := true;
      req := SaveGameRequest(juegoData, isEdit);
      submitView := view;
    }

    /**
     * The save succeeded: the library is shown, so the list-loading effect
     * fetches again whenever the user is elsewhere. The handler's test
     * `isEdit && view === 3` reads the view it closed over at submit, which
     * is 1 or 2, so the selection is never replaced.
     */
    method SaveGameSucceeded(isEdit: bool, submitView: int, updatedJuego: Game)
      requires Valid() && (submitView == 1 || submitView == 2)
      modifies this
      ensures Valid()
      ensures view == 0 && !loading
      ensures juegoSeleccionado == old(juegoSeleccionado)
      ensures juegos == old(juegos) && error == old(error)
      ensures filters == old(filters) && reviewUpdateTrigger == old(reviewUpdateTrigger)
      ensures old(view) != 0 ==> EffectFetches(old(Deps()), Deps())
    {
      juegoSeleccionado := if isEdit && submitView == 3 then Some(updatedJuego) else juegoSeleccionado;
      view := 0;
      loading := false;
    }

    /**
     * `handleUpdateGame` up to its request. The handler closes over the
     * selection and the `fetchJuegos` (with its filters) of the render in
     * which it was called; they are returned with the request.
     */
    method BeginUpdateGame(id: string, updateData: Record) returns (req: Request, closure: UpdateClosure)
      requires Valid()
      modifies this
      ensures Valid()
      ensures req == UpdateGameRequest(id, updateData)
      ensures closure == UpdateClosure(old(juegoSeleccionado), old(filters))
      ensures loading
      ensures view == old(view) && juegos == old(juegos) && error == old(error)
      ensures juegoSeleccionado == old(juegoSeleccionado)
      ensures filters == old(filters) && reviewUpdateTrigger == old(reviewUpdateTrigger)
    {
      loading := true;
      req := UpdateGameRequest(id, updateData);
      closure := UpdateClosure(juegoSeleccionado, filters);
    }

    /** `handleToggleComplete`: an update of the game's `completado` to its negation. */
    method ToggleComplete(g: Game) returns (req: Request, closure: UpdateClosure)
      requires Valid()
      modifies this
      ensures Valid()
      ensures req == Request(PUT, GameItem(Str(g.id)), Some(TogglePayload(g)))
      ensures closure == UpdateClosure(old(juegoSeleccionado), old(filters))
      ensures loading
      ensures view == old(view) && juegos == old(juegos) && error == old(error)
      ensures juegoSeleccionado == old(juegoSeleccionado)
      ensures filters == old(filters) && reviewUpdateTrigger == old(reviewUpdateTrigger)
    {
      req, closure := BeginUpdateGame(g.id, TogglePayload(g));
    }

    /**
     * The update succeeded, as written: when the selection the handler closed
     * over has the answered id, the answer becomes the selection, whatever is
     * selected now; and the closed-over `fetchJuegos` sends the closed-over
     * filters' query. That `fetchJuegos` runs up to its own request before
     * this handler's `finally` clears the loading flag.
     */
    method UpdateGameSucceeded(id: string, updatedJuego: Game, closure: UpdateClosure) returns (query: seq<Param>)
      requires Valid()
      modifies this
      ensures Valid()
      ensures query == NonEmptyPairs(QueryKeys, FilterValues(closure.filters))
      ensures juegoSeleccionado ==
        if closure.juegoSeleccionado.Some? && closure.juegoSeleccionado.value.id == id then Some(updatedJuego)
        else old(juegoSeleccionado)
      ensures !loading && error == None
      ensures view == old(view) && juegos == old(juegos)
      ensures filters == old(filters) && reviewUpdateTrigger == old(reviewUpdateTrigger)
    {
      if closure.juegoSeleccionado.Some? && closure.juegoSeleccionado.value.id == id {
        juegoSeleccionado := Some(updatedJuego);
      }
      query := BeginFetch(closure.filters);
      loading := false;
    }

    /**
     * The update succeeded, corrected: the selection shown now is replaced
     * only when it is the updated game, and the list is fetched with the
     * filters in effect now.
     */
    method UpdateGameSucceededLive(id: string, updatedJuego: Game) returns (query: seq<Param>)
      requires Valid()
      modifies this
      ensures Valid()
      ensures query == NonEmptyPairs(QueryKeys, FilterValues(filters))
      ensures juegoSeleccionado ==
        if old(juegoSeleccionado).Some? && old(juegoSeleccionado).value.id == id then Some(updatedJuego)
        else old(juegoSeleccionado)
      ensures !loading && error == None
      ensures view == old(view) && juegos == old(juegos)
      ensures filters == old(filters) && reviewUpdateTrigger == old(reviewUpdateTrigger)
    {
      if juegoSeleccionado.Some? && juegoSeleccionado.value.id == id {
        juegoSeleccionado := Some(updatedJuego);
      }
      query := BeginFetch(filters);
      loading := false;
    }

    /** `handleDeleteJuego` up to its request: without confirmation nothing happens. */
    method BeginDelete(id: string, confirmed: bool) returns (req: Option<Request>)
      requires Valid()
      modifies this
      ensures Valid()
      ensures req == DeleteGameRequest(id, confirmed)
      ensures loading == (confirmed || old(loading))
      ensures view == old(view) && juegos == old(juegos) && error == old(error)
      ensures juegoSeleccionado == old(juegoSeleccionado)
      ensures filters == old(filters) && reviewUpdateTrigger == old(reviewUpdateTrigger)
    {
      req := DeleteGameRequest(id, confirmed);
      if confirmed {
        loading := true;
      }
    }

    /** The delete succeeded: the library is shown, which reloads the list. */
    method DeleteSucceeded()
      requires Valid()
      modifies this
      ensures Valid()
      ensures view == 0 && !loading
      ensures juegos == old(juegos) && error == old(error) && juegoSeleccionado == old(juegoSeleccionado)
      ensures filters == old(filters) && reviewUpdateTrigger == old(reviewUpdateTrigger)
      ensures old(view) != 0 ==> EffectFetches(old(Deps()), Deps())
    {
      view := 0;
      loading := false;
    }

    /**
     * `handleViewDetails`: a game, or the loaded game with the given id,
     * becomes the selection and the detail screen is shown; an id not in the
     * list changes nothing.
     */
    method ViewDetails(ref: GameRef)
      requires Valid()
      modifies this
      ensures Valid()
      ensures ref.ByObject? ==> juegoSeleccionado == Some(ref.game) && view == 3
      ensures ref.ById? && FindGame(juegos, ref.id).Some? ==>
        juegoSeleccionado == FindGame(juegos, ref.id) && view == 3
      ensures ref.ById? && FindGame(juegos, ref.id).None? ==>
        juegoSeleccionado == old(juegoSeleccionado) && view == old(view)
      ensures juegos == old(juegos) && loading == old(loading) && error == old(error)
      ensures filters == old(filters) && reviewUpdateTrigger == old(reviewUpdateTrigger)
    {
      var chosen: Game;
      if ref.ById? {
        var found := FindGame(juegos, ref.id);
        if found.None? {
          return;
        }
        chosen := found.value;
      } else {
        chosen := ref.game;
      }
      juegoSeleccionado := Some(chosen);
      view := 3;
    }

    /** `handleEditGame`: the game is selected and the edit screen shown. */
    method EditGame(g: Game)
      requires Valid()
      modifies this
      ensures Valid()
      ensures juegoSeleccionado == Some(g) && view == 2
      ensures juegos == old(juegos) && loading == old(loading) && error == old(error)
      ensures filters == old(filters) && reviewUpdateTrigger == old(reviewUpdateTrigger)
    {
      juegoSeleccionado := Some(g);
      view := 2;
    }

    /**
     * `setView(code)` as the Navbar, the back and cancel buttons and the login
     * and registration links call it; those never ask for the edit or detail
     * screens, which need a selection.
     */
    method SetView(s: Screen)
      requires Valid() && s != EditScreen && s != DetailScreen
      modifies this
      ensures Valid()
      ensures view == ViewCode(s)
      ensures juegos == old(juegos) && loading == old(loading) && error == old(error)
      ensures juegoSeleccionado == old(juegoSeleccionado)
      ensures filters == old(filters) && reviewUpdateTrigger == old(reviewUpdateTrigger)
    {
      view := ViewCode(s);
    }

    /** `FormularioRegistro` submitted: a mismatch changes nothing, a match shows the library. */
    method SubmitRegistration(password: string, confirmPassword: string) returns (o: RegistrationOutcome)
      requires Valid()
      modifies this
      ensures Valid()
      ensures o == RegistrationCheck(password, confirmPassword)
      ensures view == if o.Registered? then 0 else old(view)
      ensures juegos == old(juegos) && loading == old(loading) && error == old(error)
      ensures juegoSeleccionado == old(juegoSeleccionado)
      ensures filters == old(filters) && reviewUpdateTrigger == old(reviewUpdateTrigger)
    {
      o := RegistrationCheck(password, confirmPassword);
      if o.Registered? {
        SetView(LibraryScreen);
      }
    }

    /** `onUpdateReviews`: the trigger moves on, so the list reloads when the library is shown. */
    method ReviewsChanged()
      requires Valid()
      modifies this
      ensures Valid()
      ensures reviewUpdateTrigger == old(reviewUpdateTrigger) + 1
      ensures view == old(view) && juegos == old(juegos) && loading == old(loading) && error == old(error)
      ensures juegoSeleccionado == old(juegoSeleccionado) && filters == old(filters)
      ensures view == 0 ==> EffectFetches(old(Deps()), Deps())
    {
      reviewUpdateTrigger := reviewUpdateTrigger + 1;
    }

    /** A filter control changed; on the library screen this reloads the list, unless the value is the same. */
    method SetFilter(field: FilterField, v: string)
      requires Valid()
      modifies this
      ensures Valid()
      ensures filters == WithFilter(old(filters), field, v)
      ensures view == old(view) && juegos == old(juegos) && loading == old(loading) && error == old(error)
      ensures juegoSeleccionado == old(juegoSeleccionado) && reviewUpdateTrigger == old(reviewUpdateTrigger)
      ensures view == 0 && FilterValues(old(filters))[FieldIndex(field)] != v ==> EffectFetches(old(Deps()), Deps())
    {
      filters := WithFilter(filters, field, v);
    }
  }

  /** The Navbar's links: the library, the add form, the dashboard and the login screen. */
  datatype NavTarget = NavHome | NavAddGame | NavStats | NavLogin

  function NavScreen(t: NavTarget): (s: Screen)
    ensures s != EditScreen && s != DetailScreen
  {
    match t
    case NavHome => LibraryScreen
    case NavAddGame => AddScreen
    case NavStats => StatsScreen
    case NavLogin => LoginScreen
  }

  /** The Navbar component: its own menu flag, and the `onNavigate` it was given. */
  class Navbar {
    var isMenuOpen: bool

    constructor ()
      ensures !isMenuOpen
    {
      isMenuOpen := false;
    }

    /** The hamburger button. */
    method ToggleMenu()
      modifies this
      ensures isMenuOpen == !old(isMenuOpen)
    {
      isMenuOpen := !isMenuOpen;
    }

    /** `handleNavigate`: the app shows the link's screen and the menu closes. */
    method Navigate(app: App, t: NavTarget)
      requires app.Valid()
      modifies this, app
      ensures app.Valid()
      ensures app.view == ViewCode(NavScreen(t)) && !isMenuOpen
      ensures app.juegos == old(app.juegos) && app.loading == old(app.loading) && app.error == old(app.error)
      ensures app.juegoSeleccionado == old(app.juegoSeleccionado)
      ensures app.filters == old(app.filters) && app.reviewUpdateTrigger == old(app.reviewUpdateTrigger)
    {
      app.SetView(NavScreen(t));
      isMenuOpen := false;
    }
  }

  /**
   * An edit saved from the edit screen, answered after the user left for the
   * library and opened another game: the other game stays selected.
   */
  method SaveAnsweredAfterNavigation(g: Game, h: Game, g2: Game) returns (sel: Option<Game>)
    ensures sel == Some(h)
  {
    var app := new App();
    app.EditGame(g);
    var req, submitView := app.BeginSaveGame(GameRecord(g), true);
    app.SetView(LibraryScreen);
    app.ViewDetails(ByObject(h));
    app.SaveGameSucceeded(true, submitView, g2);
    sel := app.juegoSeleccionado;
  }

  /**
   * Game `a` toggled from its detail screen; before the answer the user goes
   * back, types a search and opens game `b`. As written, the answer for `a`
   * replaces `b` on the detail screen, and the re-fetch ignores the search.
   */
  method StaleUpdateReplacesSelection(a: Game, b: Game, a2: Game, search: string)
    returns (sel: Option<Game>, query: seq<Param>)
    ensures sel == Some(a2)
    ensures query == [("ordenarPor", "fechaCreacion")]
  {
    var app := new App();
    app.ViewDetails(ByObject(a));
    var req, closure := app.ToggleComplete(a);
    app.SetView(LibraryScreen);
    app.SetFilter(Search, search);
    app.ViewDetails(ByObject(b));
    query := app.UpdateGameSucceeded(a.id, a2, closure);
    sel := app.juegoSeleccionado;
    DefaultQuery();
  }

  /** The same steps with the corrected handler: `b` stays selected and the re-fetch sends the search. */
  method LiveUpdateKeepsSelection(a: Game, b: Game, a2: Game, search: string)
    returns (sel: Option<Game>, query: seq<Param>)
    requires a.id != b.id
    ensures sel == Some(b)
    ensures query == NonEmptyPairs(QueryKeys, FilterValues(Filters(search, "", "", "", "fechaCreacion")))
  {
    var app := new App();
    app.ViewDetails(ByObject(a));
    var req, closure := app.ToggleComplete(a);
    app.SetView(LibraryScreen);
    app.SetFilter(Search, search);
    app.ViewDetails(ByObject(b));
    query := app.UpdateGameSucceededLive(a.id, a2);
    sel := app.juegoSeleccionado;
  }
}
