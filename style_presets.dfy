/** The closed set of style presets (`StylePresetEnum`, src/App.tsx:33-43),
    and the menu the form builds from it (src/App.tsx:172-180). */
module StylePresets {
  import opened Wrappers

  /** One constructor per member of `StylePresetEnum`, in declaration order. */
  datatype StylePreset =
    | Model3d | AnalogFilm | Anime | Cinematic | ComicBook
    | DigitalArt | Enhance | FantasyArt | PixelArt

  /** The enum as the source declares it: each member's key with its string value. */
  const EnumMembers: seq<(string, string)> := [
    ("3d-model", "3d-model"),
    ("analog-film", "analog-film"),
    ("anime", "anime"),
    ("cinematic", "cinematic"),
    ("comic-book", "comic-book"),
    ("digital-art", "digital-art"),
    ("enhance", "enhance"),
    ("fantasy-art", "fantasy-art"),
    ("pixel-art", "pixel-art")
  ]

  /** Every preset, in declaration order. */
  const AllPresets: seq<StylePreset> :=
    [Model3d, AnalogFilm, Anime, Cinematic, ComicBook, DigitalArt, Enhance, FantasyArt, PixelArt]

  /** The position of a preset in the enum's declaration. */
  function Ordinal(p: StylePreset): (k: nat)
    ensures k < |AllPresets| && AllPresets[k] == p
  {
    match p
    case Model3d => 0
    case AnalogFilm => 1
    case Anime => 2
    case Cinematic => 3
    case ComicBook => 4
    case DigitalArt => 5
    case Enhance => 6
    case FantasyArt => 7
    case PixelArt => 8
  }

  /** The string value a preset stands for on the wire. */
  function Name(p: StylePreset): string {
    match p
    case Model3d => "3d-model"
    case AnalogFilm => "analog-film"
    case Anime => "anime"
    case Cinematic => "cinematic"
    case ComicBook => "comic-book"
    case DigitalArt => "digital-art"
    case Enhance => "enhance"
    case FantasyArt => "fantasy-art"
    case PixelArt => "pixel-art"
  }

  /** `s` is the value of some member of the enum (what a native-enum check accepts). */
  predicate IsEnumValue(s: string) {
    exists i :: 0 <= i < |EnumMembers| && EnumMembers[i].1 == s
  }

  /** The preset whose value is `s`, if there is one. */
  function FromName(s: string): (r: Option<StylePreset>)
    ensures r.Some? ==> Name(r.value) == s
    ensures r.None? <==> !IsEnumValue(s)
  {
    // Membership in the enum's values decides; the match then names the member.
    if !IsEnumValue(s) then None else
    match s
    case "3d-model" => Some(Model3d)
    case "analog-film" => Some(AnalogFilm)
    case "anime" => Some(Anime)
    case "cinematic" => Some(Cinematic)
    case "comic-book" => Some(ComicBook)
    case "digital-art" => Some(DigitalArt)
    case "enhance" => Some(Enhance)
    case "fantasy-art" => Some(FantasyArt)
    case "pixel-art" => Some(PixelArt)
    case _ => None
  }

  /** Distinct presets have distinct values, and decoding a value gives its preset back. */
  lemma NameRoundTrip(p: StylePreset)
    ensures FromName(Name(p)) == Some(p)
    ensures forall q :: Name(q) == Name(p) ==> q == p
  {
    EnumIsClosedSetOfNine();
    assert EnumMembers[Ordinal(p)].1 == Name(p);
  }

  /** The enum has exactly nine members, in one-to-one correspondence with the
      presets, and each member's key equals its value. */
  lemma EnumIsClosedSetOfNine()
    ensures |EnumMembers| == |AllPresets| == 9
    ensures forall i, j :: 0 <= i < j < |AllPresets| ==> AllPresets[i] != AllPresets[j]
    ensures forall p :: p in AllPresets
    ensures forall i :: 0 <= i < |EnumMembers| ==>
              EnumMembers[i].0 == EnumMembers[i].1 && EnumMembers[i].1 == Name(AllPresets[i])
  {
    forall p: StylePreset ensures p in AllPresets {
      assert AllPresets[Ordinal(p)] == p;
    }
  }

  /** One entry of the style menu: the value it submits and the caption it shows. */
  datatype MenuItem = MenuItem(value: string, caption: string)

  /** The menu: one item per key of the enum (`Object.keys`), in declaration
      order, submitting the key and captioned with the member's value. */
  function MenuItems(): (items: seq<MenuItem>)
    ensures |items| == |EnumMembers|
    ensures forall i :: 0 <= i < |items| ==>
              FromName(items[i].value) == Some(AllPresets[i]) && items[i].caption == Name(AllPresets[i])
  {
    EnumIsClosedSetOfNine();
    seq(|EnumMembers|, i requires 0 <= i < |EnumMembers| => MenuItem(EnumMembers[i].0, EnumMembers[i].1))
  }
}
