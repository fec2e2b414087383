/** The variants of the `Badge` component used by the pages' status and urgency badges. */
module Badges {
  datatype BadgeVariant = Default | Outline | Destructive

  /**
   * A two-state status badge: the default variant exactly when the status is `marked`,
   * outlined otherwise; never the destructive variant.
   */
  function MarkedBadge(status: string, marked: string): (v: BadgeVariant)
    ensures v == Default <==> status == marked
    ensures v == Outline <==> status != marked
    ensures v != Destructive
  {
    if status == marked then Default else Outline
  }
}
