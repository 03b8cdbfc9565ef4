/**
  The restaurant settings dialog: on opening it loads the stored settings
  over the defaults, and each text field edit replaces one field.

  Reading and parsing the stored JSON and saving are not part of this model:
  the stored settings arrive as a `Stored` value whose keys may be absent.
*/
module RestaurantSettings {
  import opened Wrappers
  import opened RestaurantTypes

  /** The parsed stored settings; `None` is a key the stored object does not have. */
  datatype Stored = Stored(
    name: Option<string>,
    nameAr: Option<string>,
    address: Option<string>,
    phone: Option<string>,
    logoUrl: Option<string>,
    footer: Option<string>,
    footerAr: Option<string>,
    fontSize: Option<FontSize>)

  /** A stored object with no keys. */
  const NoKeys: Stored := Stored(None, None, None, None, None, None, None, None)

  /** A stored key wins over the default. */
  function Over<T>(stored: Option<T>, default: T): T
  {
    if stored.Some? then stored.value else default
  }

  /** A stored key wins over the default, for an optional field. */
  function OverOptional<T>(stored: Option<T>, default: Option<T>): Option<T>
  {
    if stored.Some? then stored else default
  }

  /** `{ ...defaultRestaurantSettings, ...stored }`. */
  function Merge(stored: Stored): Settings
  {
    var d := DefaultSettings();
    Settings(
      Over(stored.name, d.name),
      OverOptional(stored.nameAr, d.nameAr),
      OverOptional(stored.address, d.address),
      OverOptional(stored.phone, d.phone),
      OverOptional(stored.logoUrl, d.logoUrl),
      OverOptional(stored.footer, d.footer),
      OverOptional(stored.footerAr, d.footerAr),
      OverOptional(stored.fontSize, d.fontSize))
  }

  /** Settings written back as a stored object: every present key is stored. */
  function ToStored(s: Settings): Stored
  {
    Stored(Some(s.name), s.nameAr, s.address, s.phone, s.logoUrl, s.footer, s.footerAr, s.fontSize)
  }

  /** The text fields the dialog edits. */
  datatype Field = Name | NameAr | Address | Phone | Footer | FooterAr

  /** The value of a text field as the dialog shows it: an absent key shows as empty. */
  function Get(s: Settings, f: Field): string
  {
    match f
    case Name => s.name
    case NameAr => Over(s.nameAr, "")
    case Address => Over(s.address, "")
    case Phone => Over(s.phone, "")
    case Footer => Over(s.footer, "")
    case FooterAr => Over(s.footerAr, "")
  }

  /** `{ ...settings, [f]: value }`. */
  function Edit(s: Settings, f: Field, value: string): Settings
  {
    match f
    case Name => s.(name := value)
    case NameAr => s.(nameAr := Some(value))
    case Address => s.(address := Some(value))
    case Phone => s.(phone := Some(value))
    case Footer => s.(footer := Some(value))
    case FooterAr => s.(footerAr := Some(value))
  }

  /** With no stored keys the dialog shows exactly the defaults. */
  lemma MergeNothingStored()
    ensures Merge(NoKeys) == DefaultSettings()
  {
  }

  /** Key by key, a stored value wins and an absent key falls back to the default. */
  lemma MergeKeyByKey(stored: Stored)
    ensures var m, d := Merge(stored), DefaultSettings();
      && (stored.name.Some? ==> m.name == stored.name.value)
      && (stored.name.None? ==> m.name == d.name)
      && (stored.nameAr.Some? ==> m.nameAr == stored.nameAr)
      && (stored.nameAr.None? ==> m.nameAr == d.nameAr)
      && (stored.address.Some? ==> m.address == stored.address)
      && (stored.address.None? ==> m.address == d.address)
      && (stored.phone.Some? ==> m.phone == stored.phone)
      && (stored.phone.None? ==> m.phone == d.phone)
      && (stored.logoUrl.Some? ==> m.logoUrl == stored.logoUrl)
      && (stored.logoUrl.None? ==> m.logoUrl == d.logoUrl)
      && (stored.footer.Some? ==> m.footer == stored.footer)
      && (stored.footer.None? ==> m.footer == d.footer)
      && (stored.footerAr.Some? ==> m.footerAr == stored.footerAr)
      && (stored.footerAr.None? ==> m.footerAr == d.footerAr)
      && (stored.fontSize.Some? ==> m.fontSize == stored.fontSize)
      && (stored.fontSize.None? ==> m.fontSize == d.fontSize)
  {
  }

  /** Loaded settings have every key, so storing them and loading again gives them back. */
  lemma MergeRoundTrip(stored: Stored)
    ensures var s := Merge(stored);
      s.nameAr.Some? && s.address.Some? && s.phone.Some? && s.logoUrl.Some?
      && s.footer.Some? && s.footerAr.Some? && s.fontSize.Some?
      && Merge(ToStored(s)) == s
  {
  }

  /** An edit sets its own field and leaves every other field, shown or not, as it was. */
  lemma EditOnlyThatField(s: Settings, f: Field, value: string, g: Field)
    ensures Get(Edit(s, f, value), f) == value
    ensures g != f ==> Get(Edit(s, f, value), g) == Get(s, g)
    ensures Edit(s, f, value).logoUrl == s.logoUrl && Edit(s, f, value).fontSize == s.fontSize
  {
  }

  /** The settings state of the dialog. */
  class SettingsDialog {
    var settings: Settings

    constructor ()
      ensures settings == DefaultSettings()
    {
      settings := DefaultSettings();
    }

    /**
      The effect run when `open` changes: opening loads the stored settings
      over the defaults (`stored` is None when nothing is stored); closing
      changes nothing.
    */
    method OpenChanged(open: bool, stored: Option<Stored>)
      modifies this
      ensures open && stored.Some? ==> settings == Merge(stored.value)
      ensures open && stored.None? ==> settings == DefaultSettings()
      ensures !open ==> settings == old(settings)
    {
      if open {
        if stored.Some? {
          settings := Merge(stored.value);
        } else {
          settings := DefaultSettings();
        }
      }
    }

    /** An input's change handler: replace one text field. */
    method EditField(f: Field, value: string)
      modifies this
      ensures settings == Edit(old(settings), f, value)
    {
      settings := Edit(settings, f, value);
    }
  }
}
