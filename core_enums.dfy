/** The scalar enumerations of the 3MF core and their text forms: each is
    written with its lower-case variant name and parsed case-insensitively
    (`From<String>` after `to_ascii_lowercase`), unknown text falling back to
    the enumeration's default. */
module CoreEnums {
  import opened Ascii

  datatype Unit = Micron | Millimeter | Centimeter | Inch | Foot | Meter

  datatype ObjectType = Model | Support | SolidSupport | Surface | Other

  datatype BallMode = None | Mixed | All

  datatype ClippingMode = None | Inside | Outside

  datatype CapMode = Hemisphere | Sphere | Butt

  datatype BooleanOperation = Union | Difference | Intersection

  // ---------------------------------------------------------------- Unit

  const DefaultUnit := Unit.Millimeter

  /** The lower-case name the unit is written with. */
  function UnitName(u: Unit): string {
    match u
    case Micron => "micron"
    case Millimeter => "millimeter"
    case Centimeter => "centimeter"
    case Inch => "inch"
    case Foot => "foot"
    case Meter => "meter"
  }

  function UnitFrom(s: string): (u: Unit)
    ensures UnitName(u) == Lower(s) || (u == DefaultUnit && forall v :: UnitName(v) != Lower(s))
  {
    match Lower(s)
    case "micron" => Micron
    case "millimeter" => Millimeter
    case "centimeter" => Centimeter
    case "inch" => Inch
    case "foot" => Foot
    case "meter" => Meter
    case _ => Millimeter
  }

  lemma {:induction false} UnitRoundTrip(u: Unit)
    ensures UnitFrom(UnitName(u)) == u
  {
    LowerOfLower(UnitName(u));
  }

  // ---------------------------------------------------------- ObjectType

  const DefaultObjectType := ObjectType.Model

  function ObjectTypeName(t: ObjectType): string {
    match t
    case Model => "model"
    case Support => "support"
    case SolidSupport => "solidsupport"
    case Surface => "surface"
    case Other => "other"
  }

  function ObjectTypeFrom(s: string): (t: ObjectType)
    ensures ObjectTypeName(t) == Lower(s) || (t == DefaultObjectType && forall v :: ObjectTypeName(v) != Lower(s))
  {
    match Lower(s)
    case "model" => ObjectType.Model
    case "support" => Support
    case "solidsupport" => SolidSupport
    case "surface" => Surface
    case "other" => Other
    case _ => ObjectType.Model
  }

  lemma {:induction false} ObjectTypeRoundTrip(t: ObjectType)
    ensures ObjectTypeFrom(ObjectTypeName(t)) == t
  {
    LowerOfLower(ObjectTypeName(t));
  }

  // ------------------------------------------------------------ BallMode

  const DefaultBallMode := BallMode.None

  function BallModeName(m: BallMode): string {
    match m
    case None => "none"
    case Mixed => "mixed"
    case All => "all"
  }

  function BallModeFrom(s: string): (m: BallMode)
    ensures BallModeName(m) == Lower(s) || (m == DefaultBallMode && forall v :: BallModeName(v) != Lower(s))
  {
    match Lower(s)
    case "none" => BallMode.None
    case "mixed" => Mixed
    case "all" => All
    case _ => BallMode.None
  }

  lemma {:induction false} BallModeRoundTrip(m: BallMode)
    ensures BallModeFrom(BallModeName(m)) == m
  {
    LowerOfLower(BallModeName(m));
  }

  // -------------------------------------------------------- ClippingMode

  const DefaultClippingMode := ClippingMode.None

  function ClippingModeName(m: ClippingMode): string {
    match m
    case None => "none"
    case Inside => "inside"
    case Outside => "outside"
  }

  function ClippingModeFrom(s: string): (m: ClippingMode)
    ensures ClippingModeName(m) == Lower(s) || (m == DefaultClippingMode && forall v :: ClippingModeName(v) != Lower(s))
  {
    match Lower(s)
    case "none" => ClippingMode.None
    case "inside" => Inside
    case "outside" => Outside
    case _ => ClippingMode.None
  }

  lemma {:induction false} ClippingModeRoundTrip(m: ClippingMode)
    ensures ClippingModeFrom(ClippingModeName(m)) == m
  {
    LowerOfLower(ClippingModeName(m));
  }

  // ------------------------------------------------------------- CapMode

  const DefaultCapMode := CapMode.Sphere

  function CapModeName(m: CapMode): string {
    match m
    case Hemisphere => "hemisphere"
    case Sphere => "sphere"
    case Butt => "butt"
  }

  function CapModeFrom(s: string): (m: CapMode)
    ensures CapModeName(m) == Lower(s) || (m == DefaultCapMode && forall v :: CapModeName(v) != Lower(s))
  {
    match Lower(s)
    case "hemisphere" => Hemisphere
    case "sphere" => Sphere
    case "butt" => Butt
    case _ => Sphere
  }

  lemma {:induction false} CapModeRoundTrip(m: CapMode)
    ensures CapModeFrom(CapModeName(m)) == m
  {
    LowerOfLower(CapModeName(m));
  }

  // ---------------------------------------------------- BooleanOperation

  const DefaultBooleanOperation := BooleanOperation.Union

  function BooleanOperationName(op: BooleanOperation): string {
    match op
    case Union => "union"
    case Difference => "difference"
    case Intersection => "intersection"
  }

  function BooleanOperationFrom(s: string): (op: BooleanOperation)
    ensures BooleanOperationName(op) == Lower(s) || (op == DefaultBooleanOperation && forall v :: BooleanOperationName(v) != Lower(s))
  {
    match Lower(s)
    case "union" => Union
    case "difference" => Difference
    case "intersection" => Intersection
    case _ => Union
  }

  lemma {:induction false} BooleanOperationRoundTrip(op: BooleanOperation)
    ensures BooleanOperationFrom(BooleanOperationName(op)) == op
  {
    LowerOfLower(BooleanOperationName(op));
  }

  /** Parsing ignores ASCII letter case: two spellings that agree once lowered
      parse to the same value, for every enumeration above. */
  lemma CaseInsensitive(s: string, t: string)
    requires Lower(s) == Lower(t)
    ensures UnitFrom(s) == UnitFrom(t)
    ensures ObjectTypeFrom(s) == ObjectTypeFrom(t)
    ensures BallModeFrom(s) == BallModeFrom(t)
    ensures ClippingModeFrom(s) == ClippingModeFrom(t)
    ensures CapModeFrom(s) == CapModeFrom(t)
    ensures BooleanOperationFrom(s) == BooleanOperationFrom(t)
  {
  }
}
