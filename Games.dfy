/**
 * A game of the library as the list endpoint returns it, keeping the
 * properties the screens read. Fields that the server may omit are options.
 */
module Games {
  import opened JsValues

  datatype Game = Game(
    id: string,                     // `_id`, assigned by the backend
    titulo: string,
    genero: string,
    plataforma: string,
    anoLanzamiento: int,            // `añoLanzamiento`
    desarrollador: string,
    imagenPortada: string,
    descripcion: string,
    completado: bool,
    logrosObtenidos: Option<int>,
    logrosTotales: Option<int>,
    totalHorasJugadas: Option<int>)

  /** An optional number as a record property: absent when the server left it out. */
  function OptionalNum(k: string, v: Option<int>): (r: Record)
    ensures v.None? ==> r == map[]
    ensures v.Some? ==> r == map[k := Num(v.value)]
  {
    if v.Some? then map[k := Num(v.value)] else map[]
  }

  /** The game as the plain object the edit form receives as `juegoInicial`. */
  function GameRecord(g: Game): (r: Record)
    ensures "_id" in r && r["_id"] == Str(g.id)
    ensures "titulo" in r && r["titulo"] == Str(g.titulo)
    ensures "completado" in r && r["completado"] == Bool(g.completado)
  {
    map[
      "_id" := Str(g.id),
      "titulo" := Str(g.titulo),
      "genero" := Str(g.genero),
      "plataforma" := Str(g.plataforma),
      "añoLanzamiento" := Num(g.anoLanzamiento),
      "desarrollador" := Str(g.desarrollador),
      "imagenPortada" := Str(g.imagenPortada),
      "descripcion" := Str(g.descripcion),
      "completado" := Bool(g.completado)]
    + OptionalNum("logrosObtenidos", g.logrosObtenidos)
    + OptionalNum("logrosTotales", g.logrosTotales)
    + OptionalNum("totalHorasJugadas", g.totalHorasJugadas)
  }

  /** Setting `completado` on a game sets that one property of its record. */
  lemma GameRecordWithCompletado(g: Game, b: bool)
    ensures GameRecord(g.(completado := b)) == GameRecord(g)["completado" := Bool(b)]
  {
  }
}
