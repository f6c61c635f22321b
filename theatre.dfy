/** Shows with a date, a capacity and a state, and the helpers that classify them. */
module Theatre {
  import opened Wrappers
  import Strings

  datatype FunctionStatus = Activo | Suspendido | Agotado | Finalizado

  /** A scheduled show with its seat counts. */
  datatype TheatreFunction = TheatreFunction(
    id: int,
    nombreFuncion: string,
    descripcionFuncion: string,
    valorEntradaFuncion: int,
    imagenFuncion: string,
    fechaFuncion: string,
    horaFuncion: string,
    capacidadTotal: int,
    entradasVendidas: int,
    estado: FunctionStatus,
    createdAt: Option<string>)

  /** `getCuposDisponibles`: seats left; negative when more were sold than the capacity. */
  function CuposDisponibles(f: TheatreFunction): (r: int)
    ensures r + f.entradasVendidas == f.capacidadTotal
    ensures r < 0 <==> f.entradasVendidas > f.capacidadTotal
  {
    f.capacidadTotal - f.entradasVendidas
  }

  /** `isFunctionAgotada`: no seats left, or marked sold out by hand. */
  function IsAgotada(f: TheatreFunction): (r: bool)
    ensures r <==> CuposDisponibles(f) <= 0 || f.estado == Agotado
  {
    f.entradasVendidas >= f.capacidadTotal || f.estado == Agotado
  }

  /** `isFunctionDisponible`: on sale only when active and not sold out. */
  function IsDisponible(f: TheatreFunction): (r: bool)
    ensures r <==> f.estado == Activo && CuposDisponibles(f) > 0
    ensures r ==> !IsAgotada(f)
  {
    f.estado == Activo && !IsAgotada(f)
  }

  /** `formatHora`: `hora.substring(0, 5)`, "HH:mm" out of "HH:mm:ss". */
  function FormatHora(hora: string): (r: string)
    ensures Strings.IsPrefix(r, hora)
    ensures |r| == if |hora| < 5 then |hora| else 5
  {
    if |hora| < 5 then hora else hora[..5]
  }

  /** `getStatusColor`: the badge colour of a state. */
  function StatusColor(estado: FunctionStatus): (r: string)
    ensures |r| == 7 && r[0] == '#'
  {
    match estado
    case Activo => "#10b981"
    case Suspendido => "#f59e0b"
    case Agotado => "#ef4444"
    case Finalizado => "#6b7280"
  }

  /** `getStatusLabel`: the Spanish label of a state. */
  function StatusLabel(estado: FunctionStatus): (r: string)
    ensures r != [] && 'A' <= r[0] <= 'Z'
  {
    match estado
    case Activo => "Activo"
    case Suspendido => "Suspendido"
    case Agotado => "Agotado"
    case Finalizado => "Finalizado"
  }

  /** The state as the backend stores it. */
  function StatusName(estado: FunctionStatus): string {
    match estado
    case Activo => "activo"
    case Suspendido => "suspendido"
    case Agotado => "agotado"
    case Finalizado => "finalizado"
  }

  /** A show whose seats are all sold is sold out, whatever its state. */
  lemma SoldOutWhenFull(f: TheatreFunction)
    requires f.entradasVendidas >= f.capacidadTotal
    ensures IsAgotada(f) && !IsDisponible(f)
  {
  }

  /** Only an active show can be on sale. */
  lemma OnlyActiveShowsAreAvailable(f: TheatreFunction)
    requires f.estado != Activo
    ensures !IsDisponible(f)
  {
  }

  /** The four badge colours are distinct, and so are the four labels. */
  lemma StatusColorsDistinct(a: FunctionStatus, b: FunctionStatus)
    ensures StatusColor(a) == StatusColor(b) ==> a == b
    ensures StatusLabel(a) == StatusLabel(b) ==> a == b
  {
  }

  /** Each label is the stored state name with a capital initial. */
  lemma LabelCapitalizesName(estado: FunctionStatus)
    ensures |StatusLabel(estado)| == |StatusName(estado)| > 0
    ensures StatusLabel(estado)[1..] == StatusName(estado)[1..]
    ensures StatusName(estado)[0] as int == StatusLabel(estado)[0] as int + 32
  {
  }
}
