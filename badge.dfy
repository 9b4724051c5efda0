/** Badges: the five colour variants and the monitor-state badge. */
module Badge {
  import opened Base
  import opened Text
  import opened Schemas

  datatype Variant = Default | Success | Warning | Error | Info

  /** The colour classes of each variant. */
  function VariantStyle(v: Variant): string
  {
    match v
    case Default => "bg-gray-100 text-gray-800"
    case Success => "bg-green-100 text-green-800"
    case Warning => "bg-yellow-100 text-yellow-800"
    case Error => "bg-red-100 text-red-800"
    case Info => "bg-blue-100 text-blue-800"
  }

  /** Each variant has a style of its own: no two variants look alike. */
  lemma VariantStylesDistinct(a: Variant, b: Variant)
    requires a != b
    ensures VariantStyle(a) != VariantStyle(b)
  {
    assert VariantStyle(a)[5] != VariantStyle(b)[5];
  }

  /** The variant a badge is drawn with: the one asked for, `Default` when none is. */
  function BadgeVariant(variant: Option<Variant>): (v: Variant)
    ensures variant.None? ==> v == Default
    ensures variant.Some? ==> v == variant.value
  {
    variant.GetOr(Default)
  }

  /** The classes of a badge: the shared shape, the variant's colours, then the caller's classes. */
  function BadgeClass(variant: Option<Variant>, className: string): (c: string)
    ensures Contains(c, VariantStyle(BadgeVariant(variant)))
    ensures HasSuffix(c, className)
  {
    var prefix := "inline-flex items-center px-2.5 py-0.5 rounded-full text-xs font-medium ";
    var style := VariantStyle(BadgeVariant(variant));
    var c := prefix + style + " " + className;
    assert ContainsAt(c, style, |prefix|);
    c
  }

  datatype StatusBadgeConfig = StatusBadgeConfig(variant: Variant, caption: string, dot: string)

  /** The monitor state's badge: idle is a green "Idle", running a blue "Running", error a red "Error". */
  function StatusBadge(state: MonitorState): (b: StatusBadgeConfig)
    ensures state == Idle <==> b.variant == Variant.Success
    ensures state == Running <==> b.variant == Info
    ensures state == MonitorState.Error <==> b.variant == Variant.Error
    ensures state == Idle ==> b.caption == "Idle"
    ensures state == Running ==> b.caption == "Running"
    ensures state == MonitorState.Error ==> b.caption == "Error"
  {
    match state
    case Idle => StatusBadgeConfig(Variant.Success, "Idle", "bg-green-500")
    case Running => StatusBadgeConfig(Info, "Running", "bg-blue-500 animate-pulse")
    case Error => StatusBadgeConfig(Variant.Error, "Error", "bg-red-500")
  }
}
