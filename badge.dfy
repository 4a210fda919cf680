/** The status badge the dashboards draw next to a row: a style variant and a text. */
module Badges {
  import opened Schema

  datatype Variant = Default | Secondary | Outline

  /** `variant` is `None` where the source looks a status up in a record that lacks it. */
  datatype Badge = Badge(variant: Option<Variant>, text: string)
}
