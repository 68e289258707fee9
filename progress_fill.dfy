/**
 * The ring fill that `WalletProgressIconComponent.render` derives from the
 * resolved icon and the progress percentage (`formattedProgress`).
 */
module ProgressFill {
  import opened Wrappers

  /** JavaScript falsiness of the icon: `undefined` and the empty string both count as no icon. */
  predicate NoIcon(icon: Option<string>)
  {
    icon.None? || icon.value == ""
  }

  /** Reference definition: `x` pulled into the closed interval [lo, hi]. */
  function Clamp(x: real, lo: real, hi: real): (r: real)
    requires lo <= hi
    ensures lo <= r <= hi
    ensures lo <= x <= hi ==> r == x
  {
    if x < lo then lo else if x > hi then hi else x
  }

  /**
   * The fill drawn by the ring. Without an icon the ring is empty; with one,
   * the fill always shows at least a sliver (5) and never looks complete (95)
   * until progress really is 100 or more.
   */
  function FormattedProgress(icon: Option<string>, progress: real): (fill: real)
    ensures NoIcon(icon) ==> fill == 0.0
    ensures !NoIcon(icon) ==> fill == if progress >= 100.0 then progress else Clamp(progress, 5.0, 95.0)
    ensures !NoIcon(icon) && 0.0 <= progress <= 100.0 ==> 5.0 <= fill <= 95.0 || fill == 100.0
    ensures !NoIcon(icon) ==> (fill == progress <==> 5.0 <= progress <= 95.0 || progress >= 100.0)
  {
    if NoIcon(icon) then 0.0
    else if progress < 5.0 then 5.0
    else if progress > 95.0 && progress < 100.0 then 95.0
    else progress
  }
}
