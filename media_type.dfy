/**
 * The kinds of media the KLIPY API serves (`MediaType` of the
 * Infrastructure layer): raw values as they appear in JSON, URL path
 * segments, display names and the case-insensitive lookup `from(string:)`.
 */
module InfraMediaType {
  import opened Ascii
  import opened Options

  datatype MediaType = Clips | Gifs | Stickers

  /** The enum's raw value, used when it is encoded. */
  function RawValue(t: MediaType): string {
    match t
    case Clips => "clip"
    case Gifs => "gif"
    case Stickers => "sticker"
  }

  /** The segment of the API path for the kind. */
  function Path(t: MediaType): string {
    match t
    case Clips => "clips"
    case Gifs => "gifs"
    case Stickers => "stickers"
  }

  /** The tab title of the Infrastructure copy. */
  function DisplayName(t: MediaType): string {
    match t
    case Clips => "CLIPs"
    case Gifs => "GIFs"
    case Stickers => "STICKERs"
  }

  /** `MediaType(rawValue:)`: the kind whose raw value is exactly `s`. */
  function FromRaw(s: string): (r: Option<MediaType>)
    ensures forall t :: r == Some(t) <==> s == RawValue(t)
  {
    if s == "clip" then Some(Clips)
    else if s == "gif" then Some(Gifs)
    else if s == "sticker" then Some(Stickers)
    else None
  }

  /** `from(string:)`: the raw-value lookup of the lower-cased string. */
  function From(s: string): (r: Option<MediaType>)
    ensures forall t :: r == Some(t) <==> Lower(s) == RawValue(t)
  {
    FromRaw(Lower(s))
  }

  /** Every kind is found again from its raw value. */
  lemma RawValueRoundTrip(t: MediaType)
    ensures FromRaw(RawValue(t)) == Some(t)
    ensures From(RawValue(t)) == Some(t)
  {
    LowerOfLower(RawValue(t));
  }

  /** Raw values, paths and display names tell the kinds apart. */
  lemma NamesInjective(t: MediaType, u: MediaType)
    ensures RawValue(t) == RawValue(u) ==> t == u
    ensures Path(t) == Path(u) ==> t == u
    ensures DisplayName(t) == DisplayName(u) ==> t == u
  {
  }

  /** The lookup ignores case: a string and its lower-case form find the same kind. */
  lemma FromIgnoresCase(s: string)
    ensures From(s) == From(Lower(s))
  {
    LowerIdempotent(s);
  }

  /** Capitalised spellings are found; a path is the plural and is not a raw value. */
  lemma FromExamples(t: MediaType)
    ensures From("GIF") == Some(Gifs) && From("Sticker") == Some(Stickers) && From("CLIP") == Some(Clips)
    ensures From(Path(t)) == None
    ensures FromRaw("GIF") == None
  {
    assert Lower("GIF") == "gif";
    assert Lower("Sticker") == "sticker";
    assert Lower("CLIP") == "clip";
    LowerOfLower(Path(t));
  }

  /** The Infrastructure display names are plurals: none of them is found by `from(string:)`. */
  lemma DisplayNameNotFound(t: MediaType)
    ensures From(DisplayName(t)) == None
  {
    match t
    case Clips => assert Lower("CLIPs") == "clips";
    case Gifs => assert Lower("GIFs") == "gifs";
    case Stickers => assert Lower("STICKERs") == "stickers";
  }
}

/**
 * The Networking layer's copy of `MediaType`.  Its cases, raw values, paths
 * and lookup are those of the Infrastructure copy, which this module reuses;
 * only the display names differ.
 */
module NetworkMediaType {
  import opened Ascii
  import opened Options
  import opened InfraMediaType

  /** The tab title of the Networking copy: singular, shadowing the plural one. */
  function DisplayName(t: MediaType): string {
    match t
    case Clips => "Clip"
    case Gifs => "GIF"
    case Stickers => "Sticker"
  }

  /** The Networking display names tell the kinds apart. */
  lemma DisplayNameInjective(t: MediaType, u: MediaType)
    ensures DisplayName(t) == DisplayName(u) ==> t == u
  {
  }

  /** Unlike the plural Infrastructure names, each singular display name
      is found again by `from(string:)`. */
  lemma DisplayNameRoundTrip(t: MediaType)
    ensures From(DisplayName(t)) == Some(t)
  {
    match t
    case Clips => assert Lower("Clip") == "clip";
    case Gifs => assert Lower("GIF") == "gif";
    case Stickers => assert Lower("Sticker") == "sticker";
  }
}
