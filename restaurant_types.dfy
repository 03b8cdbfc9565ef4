/** The restaurant's printable identity and its default values. */
module RestaurantTypes {
  import opened Wrappers

  datatype FontSize = Normal | Medium | Large

  /** `RestaurantSettings`: only `name` is required; `None` is an absent key. */
  datatype Settings = Settings(
    name: string,
    nameAr: Option<string>,
    address: Option<string>,
    phone: Option<string>,
    logoUrl: Option<string>,
    footer: Option<string>,
    footerAr: Option<string>,
    fontSize: Option<FontSize>)

  /** `defaultRestaurantSettings`: every key present, the name and both footers non-empty. */
  function DefaultSettings(): (d: Settings)
    ensures d.name != ""
    ensures d.footer.Some? && d.footer.value != ""
    ensures d.footerAr.Some? && d.footerAr.value != ""
    ensures d.nameAr.Some? && d.address.Some? && d.phone.Some? && d.logoUrl.Some? && d.fontSize.Some?
  {
    Settings(
      name := "ASAF Restaurant",
      nameAr := Some("مطعم أصف"),
      address := Some(""),
      phone := Some(""),
      logoUrl := Some(""),
      footer := Some("תודה רבה!"),
      footerAr := Some("شكراً جزيلاً!"),
      fontSize := Some(Normal))
  }
}
