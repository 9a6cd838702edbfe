/**
 * A media item as the domain layer holds it: up to four renditions (hd, md,
 * sm, xs) or a single file, and the fallback rules that pick the file to
 * show in full and the file to use as a preview.
 */
module MediaFiles {
  import opened Options
  import opened InfraMediaType

  datatype MediaFileVariant = MediaFileVariant(url: string, width: int, height: int)

  datatype MediaFile = MediaFile(mp4: Option<MediaFileVariant>, gif: MediaFileVariant, webp: MediaFileVariant)

  datatype MediaDomainModel = MediaDomainModel(
    id: int, title: string, slug: string, blurPreview: Option<string>, kind: MediaType,
    hd: Option<MediaFile>, md: Option<MediaFile>, sm: Option<MediaFile>, xs: Option<MediaFile>,
    singleFile: Option<MediaFile>)

  datatype MediaSize = HD | MD | SM | XS

  /** Position of a size from the sharpest (hd) to the smallest (xs). */
  function Rank(s: MediaSize): nat {
    match s
    case HD => 0
    case MD => 1
    case SM => 2
    case XS => 3
  }

  /** The rendition stored for a size. */
  function Rendition(m: MediaDomainModel, s: MediaSize): Option<MediaFile> {
    match s
    case HD => m.hd
    case MD => m.md
    case SM => m.sm
    case XS => m.xs
  }

  /** Something can be shown: a single file or at least one rendition.
      Both fallbacks force-unwrap their last choice, so they need this. */
  predicate HasFile(m: MediaDomainModel) {
    m.singleFile.Some? || m.hd.Some? || m.md.Some? || m.sm.Some? || m.xs.Some?
  }

  /** `bestAvailableFile`: the single file, else the sharpest rendition there is. */
  function BestAvailableFile(m: MediaDomainModel): (f: MediaFile)
    requires HasFile(m)
    ensures m.singleFile.Some? ==> f == m.singleFile.value
    ensures m.singleFile.None? ==> exists s :: (Rendition(m, s) == Some(f) &&
      forall s' :: Rank(s') < Rank(s) ==> Rendition(m, s').None?)
  {
    if m.singleFile.Some? then m.singleFile.value
    else if m.hd.Some? then
      assert Rendition(m, HD) == m.hd;
      m.hd.value
    else if m.md.Some? then
      assert Rendition(m, MD) == m.md;
      m.md.value
    else if m.sm.Some? then
      assert Rendition(m, SM) == m.sm;
      m.sm.value
    else
      assert Rendition(m, XS) == m.xs;
      m.xs.value
  }

  /** `previewFile`: the single file, else the smallest rendition there is. */
  function PreviewFile(m: MediaDomainModel): (f: MediaFile)
    requires HasFile(m)
    ensures m.singleFile.Some? ==> f == m.singleFile.value
    ensures m.singleFile.None? ==> exists s :: (Rendition(m, s) == Some(f) &&
      forall s' :: Rank(s') > Rank(s) ==> Rendition(m, s').None?)
  {
    if m.singleFile.Some? then m.singleFile.value
    else if m.xs.Some? then
      assert Rendition(m, XS) == m.xs;
      m.xs.value
    else if m.sm.Some? then
      assert Rendition(m, SM) == m.sm;
      m.sm.value
    else if m.md.Some? then
      assert Rendition(m, MD) == m.md;
      m.md.value
    else
      assert Rendition(m, HD) == m.hd;
      m.hd.value
  }

  /** `getFileVariant(size:)`: the single file, else the rendition of that size,
      which may be missing. */
  function GetFileVariant(m: MediaDomainModel, size: MediaSize): (f: Option<MediaFile>)
    ensures m.singleFile.Some? ==> f == m.singleFile
    ensures m.singleFile.None? ==> f == Rendition(m, size)
  {
    if m.singleFile.Some? then m.singleFile
    else match size
      case HD => m.hd
      case MD => m.md
      case SM => m.sm
      case XS => m.xs
  }

  /** A single file overrides every rendition, for all three lookups. */
  lemma SingleFileWins(m: MediaDomainModel, size: MediaSize)
    requires m.singleFile.Some?
    ensures BestAvailableFile(m) == m.singleFile.value
    ensures PreviewFile(m) == m.singleFile.value
    ensures GetFileVariant(m, size) == m.singleFile
  {
  }

  /** With every rendition present and no single file, the full view gets
      hd and the preview gets xs. */
  lemma AllRenditions(m: MediaDomainModel)
    requires m.singleFile.None? && m.hd.Some? && m.md.Some? && m.sm.Some? && m.xs.Some?
    ensures BestAvailableFile(m) == m.hd.value
    ensures PreviewFile(m) == m.xs.value
  {
  }

  /** Both fallbacks agree with the size lookup: each is the file stored for
      some size, and the full view is never smaller than the preview. */
  lemma FallbacksAreVariants(m: MediaDomainModel)
    requires HasFile(m) && m.singleFile.None?
    ensures exists s, t :: (Rank(s) <= Rank(t)
      && GetFileVariant(m, s) == Some(BestAvailableFile(m))
      && GetFileVariant(m, t) == Some(PreviewFile(m)))
  {
    var best := BestAvailableFile(m);
    var preview := PreviewFile(m);
    var s :| Rendition(m, s) == Some(best) && forall s' :: Rank(s') < Rank(s) ==> Rendition(m, s').None?;
    var t :| Rendition(m, t) == Some(preview) && forall s' :: Rank(s') > Rank(t) ==> Rendition(m, s').None?;
    assert GetFileVariant(m, s) == Some(best);
    assert GetFileVariant(m, t) == Some(preview);
  }

  /** With a single rendition the two fallbacks pick the same file. */
  lemma OneRendition(m: MediaDomainModel, s: MediaSize)
    requires m.singleFile.None? && Rendition(m, s).Some?
    requires forall s' :: s' != s ==> Rendition(m, s').None?
    ensures BestAvailableFile(m) == PreviewFile(m) == Rendition(m, s).value
  {
    assert Rendition(m, HD) == m.hd && Rendition(m, MD) == m.md;
    assert Rendition(m, SM) == m.sm && Rendition(m, XS) == m.xs;
  }
}
