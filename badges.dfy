/** The props of a rendered `Badge`: an optional style variant, an optional extra class and its text. */
module Badges {
  import opened Wrappers

  datatype Variant = DefaultVariant | Outline | Secondary | Destructive

  datatype Badge = Badge(variant: Option<Variant>, className: Option<string>, text: string)
}
