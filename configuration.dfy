/**
 * The style and layout tables of the watch face: the two style keys, the
 * ambient-mode choice, the four complication slots and the five layout
 * presets that enable them. All of it is constant data; the lemmas state the
 * facts the tables are built to satisfy.
 *
 * Slot bounds are fractions of the face's width and height; here they are
 * whole hundredths (`RectF(0.76f, 0.40f, 0.98f, 0.62f)` is
 * `Rect(76, 40, 98, 62)`).
 */
module Configuration {

  const STYLE_KEY_AMBIENT: string := "ambient_type_setting"
  const STYLE_KEY_LAYOUT: string := "complication_layout_setting"

  datatype AmbientModeType = Minimalistic | Background

  /** The complication data types of the wear library's `ComplicationType`. */
  datatype ComplicationType =
    | NoData | Empty | NotConfigured
    | ShortText | LongText | RangedValue
    | MonochromaticImage | SmallImage | PhotoImage
    | NoPermission | GoalProgress | WeightedElements

  /** A rectangle in hundredths of the face: `left`, `top` inclusive corners, `right`, `bottom` far edges. */
  datatype Rect = Rect(left: int, top: int, right: int, bottom: int)

  /** Left of right and top above bottom, all inside the unit square. */
  predicate WellFormed(r: Rect) {
    0 <= r.left < r.right <= 100 && 0 <= r.top < r.bottom <= 100
  }

  /** The open interiors of `a` and `b` have no point in common. */
  predicate InteriorsDisjoint(a: Rect, b: Rect) {
    a.right <= b.left || b.right <= a.left || a.bottom <= b.top || b.bottom <= a.top
  }

  /** The types every slot accepts, in the order the table lists them. */
  const SLOT_TYPES: seq<ComplicationType> := [RangedValue, MonochromaticImage, ShortText, SmallImage]

  datatype ComplicationSlotInfo = RightTop | RightBottom | RightCenter | LeftTop {

    /** The complication slot id the slot is registered under. */
    function Id(): int {
      match this
      case RightTop => 100
      case RightBottom => 300
      case RightCenter => 200
      case LeftTop => 400
    }

    function Types(): seq<ComplicationType> {
      match this
      case RightTop => SLOT_TYPES
      case RightBottom => SLOT_TYPES
      case RightCenter => SLOT_TYPES
      case LeftTop => SLOT_TYPES
    }

    function Bounds(): Rect {
      match this
      case RightTop => Rect(76, 40, 98, 62)
      case RightBottom => Rect(68, 62, 90, 84)
      case RightCenter => Rect(72, 48, 96, 72)
      case LeftTop => Rect(2, 40, 24, 62)
    }
  }

  /** `ComplicationSlotInfo.values()`, in declaration order. */
  const ALL_SLOTS: seq<ComplicationSlotInfo> := [RightTop, RightBottom, RightCenter, LeftTop]

  /** A string or drawable resource, by its resource name. */
  datatype Resource = Resource(name: string)

  datatype ComplicationLayout = CompatRight | CompatLeft | FullRight | Full | Clear {

    /** The value stored for the layout style option. */
    function Id(): string {
      match this
      case CompatRight => "compat_right"
      case CompatLeft => "compat_left"
      case FullRight => "full_right"
      case Full => "full"
      case Clear => "clear"
    }

    /** `R.string.layout_<id>` */
    function Title(): Resource {
      match this
      case CompatRight => Resource("layout_compat_right")
      case CompatLeft => Resource("layout_compat_left")
      case FullRight => Resource("layout_full_right")
      case Full => Resource("layout_full")
      case Clear => Resource("layout_clear")
    }

    /** `R.drawable.layout_<id>` */
    function Icon(): Resource {
      match this
      case CompatRight => Resource("layout_compat_right")
      case CompatLeft => Resource("layout_compat_left")
      case FullRight => Resource("layout_full_right")
      case Full => Resource("layout_full")
      case Clear => Resource("layout_clear")
    }

    /** The slots the layout enables, in order. */
    function Complications(): seq<ComplicationSlotInfo> {
      match this
      case CompatRight => [RightCenter]
      case CompatLeft => [LeftTop]
      case FullRight => [RightTop, RightBottom]
      case Full => [RightTop, RightBottom, LeftTop]
      case Clear => []
    }
  }

  /** `ComplicationLayout.values()`, in declaration order. */
  const ALL_LAYOUTS: seq<ComplicationLayout> := [CompatRight, CompatLeft, FullRight, Full, Clear]

  predicate NoDuplicates<T(==)>(s: seq<T>) {
    forall i, j :: 0 <= i < j < |s| ==> s[i] != s[j]
  }

  /** The enumerations list every constant once. */
  lemma ValuesAreComplete()
    ensures forall s: ComplicationSlotInfo :: s in ALL_SLOTS
    ensures forall l: ComplicationLayout :: l in ALL_LAYOUTS
    ensures NoDuplicates(ALL_SLOTS) && NoDuplicates(ALL_LAYOUTS)
  {
    forall s: ComplicationSlotInfo ensures s in ALL_SLOTS {
      match s
      case RightTop => assert ALL_SLOTS[0] == s;
      case RightBottom => assert ALL_SLOTS[1] == s;
      case RightCenter => assert ALL_SLOTS[2] == s;
      case LeftTop => assert ALL_SLOTS[3] == s;
    }
    forall l: ComplicationLayout ensures l in ALL_LAYOUTS {
      match l
      case CompatRight => assert ALL_LAYOUTS[0] == l;
      case CompatLeft => assert ALL_LAYOUTS[1] == l;
      case FullRight => assert ALL_LAYOUTS[2] == l;
      case Full => assert ALL_LAYOUTS[3] == l;
      case Clear => assert ALL_LAYOUTS[4] == l;
    }
  }

  /** No two slots share an id: 100, 300, 200 and 400. */
  lemma SlotIdsDistinct()
    ensures forall s, t: ComplicationSlotInfo :: s != t ==> s.Id() != t.Id()
    ensures forall s: ComplicationSlotInfo :: s.Id() in {100, 200, 300, 400}
  {
  }

  /** The two style settings are stored under different keys. */
  lemma StyleKeysDistinct()
    ensures STYLE_KEY_AMBIENT != STYLE_KEY_LAYOUT
  {
  }

  /** No two layouts share an id, a title or an icon. */
  lemma LayoutIdsDistinct()
    ensures forall l, m: ComplicationLayout :: l != m ==> l.Id() != m.Id()
    ensures forall l, m: ComplicationLayout :: l != m ==> l.Title() != m.Title() && l.Icon() != m.Icon()
  {
  }

  /** Every slot accepts ranged values, monochromatic images, short texts and small images, and nothing else. */
  lemma SlotsAcceptTheSameTypes()
    ensures forall s: ComplicationSlotInfo :: s.Types() == [RangedValue, MonochromaticImage, ShortText, SmallImage]
    ensures forall s: ComplicationSlotInfo, t: ComplicationType ::
      t in s.Types() <==> t == RangedValue || t == MonochromaticImage || t == ShortText || t == SmallImage
    ensures forall s: ComplicationSlotInfo :: NoDuplicates(s.Types())
  {
  }

  /** No layout enables a slot twice; the sizes are 1, 1, 2, 3 and 0. */
  lemma LayoutSlotsAreDistinct()
    ensures forall l: ComplicationLayout :: NoDuplicates(l.Complications())
    ensures |CompatRight.Complications()| == 1 && |CompatLeft.Complications()| == 1
    ensures |FullRight.Complications()| == 2 && |Full.Complications()| == 3
    ensures Clear.Complications() == []
  {
  }

  /** FULL is FULL_RIGHT plus the left slot, and every layout but COMPAT_RIGHT is contained in FULL. */
  lemma LayoutContainment()
    ensures Full.Complications() == FullRight.Complications() + [LeftTop]
    ensures forall l: ComplicationLayout, s :: l != CompatRight && s in l.Complications() ==> s in Full.Complications()
    ensures forall l: ComplicationLayout, s :: s in Clear.Complications() ==> s in l.Complications()
    ensures forall l: ComplicationLayout :: RightCenter in l.Complications() <==> l == CompatRight
  {
  }

  /** Each slot's box lies in the face and is a square: 24 hundredths for RIGHT_CENTER, 22 for the others. */
  lemma SlotBoundsWellFormed()
    ensures forall s: ComplicationSlotInfo :: WellFormed(s.Bounds())
    ensures forall s: ComplicationSlotInfo ::
      s.Bounds().right - s.Bounds().left == s.Bounds().bottom - s.Bounds().top == (if s == RightCenter then 24 else 22)
  {
  }

  /**
   * Slots enabled together never overlap. RIGHT_TOP and RIGHT_BOTTOM share
   * an edge segment at 0.62, and RIGHT_CENTER overlaps both of them, which is
   * why it is only ever enabled alone.
   */
  lemma LayoutSlotsDoNotOverlap()
    ensures forall l: ComplicationLayout, i, j ::
      0 <= i < j < |l.Complications()| ==> InteriorsDisjoint(l.Complications()[i].Bounds(), l.Complications()[j].Bounds())
    ensures RightTop.Bounds().bottom == RightBottom.Bounds().top == 62
    ensures RightTop.Bounds().left < RightBottom.Bounds().right && RightBottom.Bounds().left < RightTop.Bounds().right
    ensures !InteriorsDisjoint(RightCenter.Bounds(), RightTop.Bounds())
    ensures !InteriorsDisjoint(RightCenter.Bounds(), RightBottom.Bounds())
  {
  }
}
