/**
 * The game form (`FormularioJuego`) and the review form (`ReviewForm`): a
 * draft seeded from defaults overridden by an optional initial record, merged
 * field by field as the user types, and handed to the save callback.
 */
module GameForm {
  import opened JsValues
  import opened Games
  import opened Requests

  /** The draft's defaults; `añoLanzamiento` defaults to the current year. */
  function DraftDefaults(currentYear: int): (d: Record)
    ensures d.Keys == DraftFields
  {
    map[
      "titulo" := Str(""),
      "genero" := Str("RPG"),
      "plataforma" := Str("PC"),
      "añoLanzamiento" := Num(currentYear),
      "desarrollador" := Str(""),
      "imagenPortada" := Str(""),
      "descripcion" := Str(""),
      "completado" := Bool(false)]
  }

  /** The names of the form's inputs: the only names a change event can carry. */
  const DraftFields: set<string> :=
    {"titulo", "genero", "plataforma", "añoLanzamiento", "desarrollador", "imagenPortada", "descripcion", "completado"}

  /** `juegoInicial = {}`: `None` is the prop left out. */
  function InitialRecord(juegoInicial: Option<Record>): Record {
    if juegoInicial.Some? then juegoInicial.value else map[]
  }

  /** `isEdit = !!juegoInicial._id` */
  predicate IsEdit(juegoInicial: Option<Record>) {
    Truthy(Get(InitialRecord(juegoInicial), "_id"))
  }

  /**
   * The form's state: the draft and the search suggestions (kept by React
   * between renders), and the mode, which every render recomputes from the
   * current `juegoInicial` prop.
   */
  datatype FormState = FormState(juego: Record, searchResults: seq<Suggestion>, isEdit: bool)

  /** One result of the metadata search, with the properties the form copies. */
  datatype Suggestion = Suggestion(name: Value, released: Value, backgroundImage: Value)

  /**
   * The state at mount: `{ ...defaults, ...juegoInicial }`, no suggestions,
   * and edit mode exactly when the initial record has a truthy `_id`.
   */
  function InitForm(juegoInicial: Option<Record>, currentYear: int): (st: FormState)
    ensures st.juego.Keys == DraftFields + InitialRecord(juegoInicial).Keys
    ensures forall k :: k in InitialRecord(juegoInicial) ==> st.juego[k] == InitialRecord(juegoInicial)[k]
    ensures forall k :: k in DraftFields && k !in InitialRecord(juegoInicial) ==>
      st.juego[k] == DraftDefaults(currentYear)[k]
    ensures st.isEdit <==> "_id" in InitialRecord(juegoInicial) && Truthy(InitialRecord(juegoInicial)["_id"])
    ensures st.searchResults == []
  {
    FormState(Spread(DraftDefaults(currentYear), InitialRecord(juegoInicial)), [], IsEdit(juegoInicial))
  }

  /** `handleChange`: only the named field changes, to `checked` for a checkbox and to the raw text otherwise. */
  function HandleChange(st: FormState, e: InputEvent): (r: FormState)
    ensures r.juego.Keys == st.juego.Keys + {e.name}
    ensures r.juego[e.name] == (if e.inputType == "checkbox" then Bool(e.checked) else Str(e.value))
    ensures forall k :: k in st.juego && k != e.name ==> r.juego[k] == st.juego[k]
    ensures r.searchResults == st.searchResults && r.isEdit == st.isEdit
  {
    st.(juego := ApplyChange(st.juego, e))
  }

  /**
   * `handleSelectGame`: the suggestion's name, release date and image become
   * `titulo`, `añoLanzamiento` and `imagenPortada`; nothing else in the draft
   * changes, and the suggestion list is cleared.
   */
  function SelectSuggestion(st: FormState, s: Suggestion): (r: FormState)
    ensures r.juego.Keys == st.juego.Keys + {"titulo", "añoLanzamiento", "imagenPortada"}
    ensures r.juego["titulo"] == s.name
    ensures r.juego["añoLanzamiento"] == s.released
    ensures r.juego["imagenPortada"] == s.backgroundImage
    ensures forall k :: k in st.juego && k !in {"titulo", "añoLanzamiento", "imagenPortada"} ==>
      r.juego[k] == st.juego[k]
    ensures r.searchResults == [] && r.isEdit == st.isEdit
  {
    var juego := Spread(st.juego, map[
      "titulo" := s.name,
      "añoLanzamiento" := s.released,
      "imagenPortada" := s.backgroundImage]);
    FormState(juego, [], st.isEdit)
  }

  /**
   * No input of the form and no suggestion can alter the draft's `_id`: an
   * edited game keeps its identity whatever the user does.
   */
  lemma {:induction false} IdentityUnchangedByEdits(st: FormState, e: InputEvent, s: Suggestion)
    requires e.name in DraftFields
    ensures Get(HandleChange(st, e).juego, "_id") == Get(st.juego, "_id")
    ensures Get(SelectSuggestion(st, s).juego, "_id") == Get(st.juego, "_id")
  {
    assert "_id" !in DraftFields;
  }

  /**
   * A render with new props and the same element in the same place: React
   * keeps the draft and the suggestions, and only the mode follows the new
   * `juegoInicial`. The draft is seeded once, at mount.
   */
  function Rerender(st: FormState, juegoInicial: Option<Record>): (r: FormState)
    ensures r.juego == st.juego && r.searchResults == st.searchResults
    ensures r.isEdit <==> "_id" in InitialRecord(juegoInicial) && Truthy(InitialRecord(juegoInicial)["_id"])
  {
    st.(isEdit := IsEdit(juegoInicial))
  }

  /**
   * Views 1 and 2 render the same element shape, so moving from the edit
   * screen to the add screen re-renders the mounted edit form without
   * `juegoInicial`: the add screen shows the edited game, `_id` included, in
   * add mode, and saving it sends a POST of that draft to the collection.
   */
  lemma EditDraftCarriedIntoAddForm(g: Game, currentYear: int)
    ensures var edit := InitForm(Some(GameRecord(g)), currentYear);
      var add := Rerender(edit, None);
      && add.juego == edit.juego
      && add.juego["_id"] == Str(g.id)
      && !add.isEdit
      && SaveGameRequest(add.juego, add.isEdit) == Request(POST, Games, Some(edit.juego))
  {
  }

  /**
   * The add form, mounted fresh (from the library) with no initial record,
   * starts from the defaults alone and is not in edit mode.
   */
  lemma AddFormStartsFromDefaults(currentYear: int)
    ensures InitForm(None, currentYear).juego == DraftDefaults(currentYear)
    ensures !InitForm(None, currentYear).isEdit
  {
  }

  /**
   * The edit form for a loaded game shows that game's fields, and is in edit
   * mode exactly when the game has a non-empty id.
   */
  lemma EditFormShowsGame(g: Game, currentYear: int)
    ensures var st := InitForm(Some(GameRecord(g)), currentYear);
      && st.juego["titulo"] == Str(g.titulo)
      && st.juego["completado"] == Bool(g.completado)
      && st.juego["_id"] == Str(g.id)
      && (st.isEdit <==> g.id != "")
  {
  }

  /** The review draft's defaults. */
  function ReviewDefaults(): (d: Record)
    ensures "puntuacion" in d && d["puntuacion"] == Num(3)
  {
    map[
      "puntuacion" := Num(3),
      "textoReseña" := Str(""),
      "horasJugadas" := Num(0),
      "dificultad" := Str("Normal"),
      "recomendaria" := Bool(true)]
  }

  /**
   * The review form at mount: `{ ...defaults, ...reviewInitial }`, in edit
   * mode exactly when the initial review has a truthy `_id`.
   */
  function InitReview(reviewInitial: Option<Record>): (r: (Record, bool))
    ensures r.0.Keys == ReviewDefaults().Keys + InitialRecord(reviewInitial).Keys
    ensures forall k :: k in InitialRecord(reviewInitial) ==> r.0[k] == InitialRecord(reviewInitial)[k]
    ensures forall k :: k in ReviewDefaults() && k !in InitialRecord(reviewInitial) ==> r.0[k] == ReviewDefaults()[k]
    ensures r.1 <==> Truthy(Get(InitialRecord(reviewInitial), "_id"))
  {
    (Spread(ReviewDefaults(), InitialRecord(reviewInitial)), IsEdit(reviewInitial))
  }
}
