/**
 * The image manager's bookkeeping: the srcset string, the choice between lazy
 * and immediate loading, the registry of lazy images drained by the
 * intersection observer, the reaction to a failed load, cleanup, and the
 * gallery and before/after components. Images are element identities; the
 * loads the manager starts are recorded in order instead of performed.
 */
module Images {
  import opened Wrappers
  import ConfigManager
  import Domain

  type ImageElement = nat

  // ---------------------------------------------------------------------------
  // srcset

  /** The widths the srcset lists, in order. */
  const SrcSetWidths: seq<nat> := [320, 640, 960, 1280, 1920]

  /** The decimal spelling of `n`, as a template literal prints it. */
  function DecimalDigits(n: nat): (s: string)
    ensures |s| >= 1
    decreases n
  {
    if n < 10 then ["0123456789"[n]] else DecimalDigits(n / 10) + ["0123456789"[n % 10]]
  }

  /** The URL for one width; the service is not there yet, so it is the base URL. */
  function ResponsiveSrc(base: string, width: nat): string {
    base
  }

  /** `parts.join(sep)`. */
  function Join(parts: seq<string>, sep: string): string
    decreases |parts|
  {
    if parts == [] then ""
    else if |parts| == 1 then parts[0]
    else parts[0] + sep + Join(parts[1..], sep)
  }

  /** One srcset candidate per width: "url 320w". */
  function SrcSetCandidates(base: string): seq<string> {
    seq(|SrcSetWidths|, k requires 0 <= k < |SrcSetWidths| =>
      ResponsiveSrc(base, SrcSetWidths[k]) + (" " + DecimalDigits(SrcSetWidths[k]) + "w"))
  }

  /** The candidates joined by commas. */
  function GenerateSrcSet(base: string): string {
    Join(SrcSetCandidates(base), ", ")
  }

  lemma WidthsSpelledOut()
    ensures DecimalDigits(320) == "320" && DecimalDigits(640) == "640" && DecimalDigits(960) == "960"
    ensures DecimalDigits(1280) == "1280" && DecimalDigits(1920) == "1920"
  {
    ThreeDigits(3, 2, 0);
    ThreeDigits(6, 4, 0);
    ThreeDigits(9, 6, 0);
    ThreeDigits(12, 8, 0);
    ThreeDigits(19, 2, 0);
    assert DecimalDigits(12) == "12" && DecimalDigits(19) == "19";
  }

  /** Appending two digits to a number appends their characters to its spelling. */
  lemma ThreeDigits(n: nat, d1: nat, d0: nat)
    requires 0 < n && d1 < 10 && d0 < 10
    ensures DecimalDigits((n * 10 + d1) * 10 + d0) == DecimalDigits(n) + ["0123456789"[d1], "0123456789"[d0]]
  {
    var m := n * 10 + d1;
    assert m * 10 + d0 >= 10 && (m * 10 + d0) / 10 == m && (m * 10 + d0) % 10 == d0;
    assert m >= 10 && m / 10 == n && m % 10 == d1;
  }

  lemma JoinFive(a: string, b: string, c: string, d: string, e: string, sep: string)
    ensures Join([a, b, c, d, e], sep) == a + sep + b + sep + c + sep + d + sep + e
  {
    assert Join([e], sep) == e;
    assert [d, e][1..] == [e];
    assert Join([d, e], sep) == d + sep + e;
    assert [c, d, e][1..] == [d, e];
    assert Join([c, d, e], sep) == c + sep + d + sep + e;
    assert [b, c, d, e][1..] == [c, d, e];
    assert Join([b, c, d, e], sep) == b + sep + c + sep + d + sep + e;
    assert [a, b, c, d, e][1..] == [b, c, d, e];
  }

  lemma CandidatesSpelledOut(base: string)
    ensures SrcSetCandidates(base)
      == [base + " 320w", base + " 640w", base + " 960w", base + " 1280w", base + " 1920w"]
  {
    WidthsSpelledOut();
    var c := SrcSetCandidates(base);
    assert c[0] == base + (" " + "320" + "w") && " " + "320" + "w" == " 320w";
    assert c[1] == base + (" " + "640" + "w") && " " + "640" + "w" == " 640w";
    assert c[2] == base + (" " + "960" + "w") && " " + "960" + "w" == " 960w";
    assert c[3] == base + (" " + "1280" + "w") && " " + "1280" + "w" == " 1280w";
    assert c[4] == base + (" " + "1920" + "w") && " " + "1920" + "w" == " 1920w";
  }

  /** The srcset spelled out: the base URL once per width, so never empty. */
  lemma SrcSetSpelledOut(base: string)
    ensures GenerateSrcSet(base)
      == (base + " 320w") + ", " + (base + " 640w") + ", " + (base + " 960w") + ", "
         + (base + " 1280w") + ", " + (base + " 1920w")
    ensures GenerateSrcSet(base) != ""
  {
    CandidatesSpelledOut(base);
    JoinFive(base + " 320w", base + " 640w", base + " 960w", base + " 1280w", base + " 1920w", ", ");
  }

  // ---------------------------------------------------------------------------
  // Sources and load errors

  datatype Format = WebP | Avif | Jpeg | Png | AutoFormat

  datatype LoadOptions = LoadOptions(
    lazy: Option<bool>,
    placeholder: Option<string>,
    quality: Option<ConfigManager.ImageQuality>,
    format: Option<Format>,
    sizes: Option<string>)

  /** AVIF support is not detected yet: the check always answers no. */
  const SupportsAvif := false

  /** The conversion services are not there yet: both return the source unchanged. */
  function ConvertTo(src: string, format: Format): string {
    src
  }

  /**
   * The source to request: WebP when allowed and supported, then AVIF when
   * allowed and supported, else the original. Every branch is the original
   * source for now.
   */
  function OptimizedSrc(src: string, options: LoadOptions, supportsWebP: bool): (r: string)
    ensures r == src
  {
    var format := options.format.GetOr(AutoFormat);
    if (format == AutoFormat || format == WebP) && supportsWebP then ConvertTo(src, WebP)
    else if (format == AutoFormat || format == Avif) && SupportsAvif then ConvertTo(src, Avif)
    else src
  }

  /** The fallback source is the original one. */
  function FallbackSrc(src: string): string {
    src
  }

  datatype ErrorReaction = RetryWith(src: string) | Reject(message: string)

  /** A failed load retries with the fallback when it differs from what was requested, and rejects otherwise. */
  function OnLoadError(src: string, optimized: string): (r: ErrorReaction)
    ensures r.RetryWith? <==> FallbackSrc(src) != optimized
    ensures r.RetryWith? ==> r.src == FallbackSrc(src)
    ensures r.Reject? ==> r.message == "Failed to load image: " + src
  {
    var fallback := FallbackSrc(src);
    if fallback != optimized then RetryWith(fallback) else Reject("Failed to load image: " + src)
  }

  /** Since the optimized source is the original and so is the fallback, a failed load always rejects. */
  lemma FailedLoadAlwaysRejects(src: string, options: LoadOptions, supportsWebP: bool)
    ensures OnLoadError(src, OptimizedSrc(src, options, supportsWebP)) == Reject("Failed to load image: " + src)
  {
  }

  // ---------------------------------------------------------------------------
  // Lazy images and the intersection observer

  /** A load the manager started: the element and the source set on it. */
  datatype LoadRequest = LoadRequest(img: ImageElement, src: string)

  /** An intersection observer entry. */
  datatype Entry = Entry(target: ImageElement, isIntersecting: bool)

  /** An entry that loads its image: intersecting, still pending, and with a non-empty `data-src`. */
  predicate Ready(lazy: map<ImageElement, LoadOptions>, dataSrc: map<ImageElement, string>, e: Entry) {
    e.isIntersecting && e.target in lazy && e.target in dataSrc && dataSrc[e.target] != ""
  }

  /** The loads a batch of entries starts, in order, and the pending images left afterwards. */
  function Drain(entries: seq<Entry>, lazy: map<ImageElement, LoadOptions>, dataSrc: map<ImageElement, string>, supportsWebP: bool)
    : (seq<LoadRequest>, map<ImageElement, LoadOptions>)
    decreases |entries|
  {
    if entries == [] then ([], lazy)
    else
      var e := entries[0];
      if Ready(lazy, dataSrc, e) then
        var rest := Drain(entries[1..], lazy - {e.target}, dataSrc, supportsWebP);
        ([LoadRequest(e.target, OptimizedSrc(dataSrc[e.target], lazy[e.target], supportsWebP))] + rest.0, rest.1)
      else Drain(entries[1..], lazy, dataSrc, supportsWebP)
  }

  /** Draining from position `i` handles entry `i` and then drains from `i + 1`. */
  lemma DrainStep(entries: seq<Entry>, i: nat, lazy: map<ImageElement, LoadOptions>, dataSrc: map<ImageElement, string>, supportsWebP: bool)
    requires i < |entries|
    ensures var e := entries[i];
      Drain(entries[i..], lazy, dataSrc, supportsWebP)
      == if Ready(lazy, dataSrc, e) then
           var rest := Drain(entries[i + 1..], lazy - {e.target}, dataSrc, supportsWebP);
           ([LoadRequest(e.target, OptimizedSrc(dataSrc[e.target], lazy[e.target], supportsWebP))] + rest.0, rest.1)
         else Drain(entries[i + 1..], lazy, dataSrc, supportsWebP)
  {
    assert entries[i..][1..] == entries[i + 1..];
  }

  /** The images a sequence of loads touches. */
  function LoadedImages(loads: seq<LoadRequest>): set<ImageElement> {
    set k | 0 <= k < |loads| :: loads[k].img
  }

  lemma LoadedImagesAppend(loads: seq<LoadRequest>, r: LoadRequest)
    ensures LoadedImages(loads + [r]) == LoadedImages(loads) + {r.img}
  {
    var s := loads + [r];
    forall x | x in LoadedImages(s) ensures x in LoadedImages(loads) + {r.img} {
      var k :| 0 <= k < |s| && s[k].img == x;
      if k < |loads| {
        assert loads[k].img == x;
      }
    }
    forall x | x in LoadedImages(loads) ensures x in LoadedImages(s) {
      var k :| 0 <= k < |loads| && loads[k].img == x;
      assert s[k].img == x;
    }
    assert s[|loads|].img == r.img;
  }

  /**
   * A batch loads only pending images, each at most once even when reported
   * several times, from its `data-src`; exactly the loaded images stop being pending.
   */
  lemma {:induction false} DrainLoadsPendingOnce(entries: seq<Entry>, lazy: map<ImageElement, LoadOptions>, dataSrc: map<ImageElement, string>, supportsWebP: bool)
    ensures var (loads, left) := Drain(entries, lazy, dataSrc, supportsWebP);
      && (forall k | 0 <= k < |loads| :: loads[k].img in lazy && loads[k].img in dataSrc && loads[k].src == dataSrc[loads[k].img])
      && (forall k, m | 0 <= k < m < |loads| :: loads[k].img != loads[m].img)
      && left.Keys == lazy.Keys - LoadedImages(loads)
      && (forall i | i in left :: left[i] == lazy[i])
    decreases |entries|
  {
    if entries != [] {
      var e := entries[0];
      if Ready(lazy, dataSrc, e) {
        var smaller := lazy - {e.target};
        DrainLoadsPendingOnce(entries[1..], smaller, dataSrc, supportsWebP);
        var rest := Drain(entries[1..], smaller, dataSrc, supportsWebP);
        var loads := Drain(entries, lazy, dataSrc, supportsWebP).0;
        assert loads == [LoadRequest(e.target, dataSrc[e.target])] + rest.0;
        assert LoadedImages(loads) == {e.target} + LoadedImages(rest.0) by {
          forall i | i in LoadedImages(loads) ensures i in {e.target} + LoadedImages(rest.0) {
            var k :| 0 <= k < |loads| && loads[k].img == i;
            if k > 0 {
              assert rest.0[k - 1].img == i;
            }
          }
          forall i | i in LoadedImages(rest.0) ensures i in LoadedImages(loads) {
            var k :| 0 <= k < |rest.0| && rest.0[k].img == i;
            assert loads[k + 1].img == i;
          }
          assert loads[0].img == e.target;
        }
      } else {
        DrainLoadsPendingOnce(entries[1..], lazy, dataSrc, supportsWebP);
      }
    }
  }

  /** The attributes `loadImage` sets on a new image before loading it. */
  datatype ImageAttributes = ImageAttributes(sizes: Option<string>, srcset: string, placeholder: Option<string>)

  class ImageManager {
    /** The intersection observer exists. */
    var observing: bool
    /** The images the observer watches. */
    var observed: set<ImageElement>
    /** Lazy images not loaded yet, with their options. */
    var lazyImages: map<ImageElement, LoadOptions>
    /** The `data-src` attribute of each image that has one. */
    var dataSrc: map<ImageElement, string>
    var attributes: map<ImageElement, ImageAttributes>
    /** The loads started, in order. */
    var loads: seq<LoadRequest>
    /** The element the next `new Image()` yields. */
    var nextImage: nat
    const supportsWebP: bool

    /** Pending images are watched and have a `data-src`; without an observer there are neither. */
    ghost predicate Valid()
      reads this
    {
      && lazyImages.Keys <= observed
      && lazyImages.Keys <= dataSrc.Keys
      && (!observing ==> lazyImages == map[] && observed == {})
    }

    /** The observer is created when the browser offers one. */
    constructor(hasIntersectionObserver: bool, supportsWebP: bool)
      ensures Valid()
      ensures observing == hasIntersectionObserver && this.supportsWebP == supportsWebP
      ensures lazyImages == map[] && observed == {} && loads == []
    {
      observing := hasIntersectionObserver;
      observed := {};
      lazyImages := map[];
      dataSrc := map[];
      attributes := map[];
      loads := [];
      nextImage := 0;
      this.supportsWebP := supportsWebP;
    }

    /**
     * Creates an image with its srcset (and sizes and placeholder when given).
     * A lazy image, when there is an observer, is recorded with its options
     * and watched; any other image is loaded at once.
     */
    method LoadImage(src: string, options: LoadOptions) returns (img: ImageElement)
      requires Valid()
      modifies this
      ensures Valid()
      ensures img == old(nextImage) && nextImage == old(nextImage) + 1
      ensures attributes == old(attributes)[img := ImageAttributes(
        if Domain.Truthy(options.sizes) then options.sizes else None,
        GenerateSrcSet(src),
        if Domain.Truthy(options.placeholder) then options.placeholder else None)]
      ensures options.lazy == Some(true) && observing ==>
        && lazyImages == old(lazyImages)[img := options]
        && observed == old(observed) + {img}
        && dataSrc == old(dataSrc)[img := OptimizedSrc(src, options, supportsWebP)]
        && loads == old(loads)
      ensures !(options.lazy == Some(true) && observing) ==>
        && lazyImages == old(lazyImages) && observed == old(observed) && dataSrc == old(dataSrc)
        && loads == old(loads) + [LoadRequest(img, OptimizedSrc(src, options, supportsWebP))]
      ensures observing == old(observing)
    {
      img := nextImage;
      nextImage := nextImage + 1;
      var srcset := GenerateSrcSet(src);
      attributes := attributes[img := ImageAttributes(
        if Domain.Truthy(options.sizes) then options.sizes else None,
        srcset,
        if Domain.Truthy(options.placeholder) then options.placeholder else None)];
      if options.lazy == Some(true) && observing {
        dataSrc := dataSrc[img := OptimizedSrc(src, options, supportsWebP)];
        lazyImages := lazyImages[img := options];
        observed := observed + {img};
      } else {
        loads := loads + [LoadRequest(img, OptimizedSrc(src, options, supportsWebP))];
      }
    }

    /**
     * The observer callback: each intersecting entry whose image is pending
     * with a non-empty `data-src` loads that image, stops watching it and
     * drops it from the pending images.
     */
    method OnIntersection(entries: seq<Entry>)
      requires Valid() && observing
      modifies this
      ensures Valid()
      ensures loads == old(loads) + Drain(entries, old(lazyImages), dataSrc, supportsWebP).0
      ensures lazyImages == Drain(entries, old(lazyImages), dataSrc, supportsWebP).1
      ensures observed == old(observed) - LoadedImages(Drain(entries, old(lazyImages), dataSrc, supportsWebP).0)
      ensures dataSrc == old(dataSrc) && observing
    {
      ghost var started: seq<LoadRequest> := [];
      var i := 0;
      while i < |entries|
        invariant 0 <= i <= |entries|
        invariant dataSrc == old(dataSrc) && observing
        invariant loads == old(loads) + started
        invariant started + Drain(entries[i..], lazyImages, dataSrc, supportsWebP).0 == Drain(entries, old(lazyImages), dataSrc, supportsWebP).0
        invariant Drain(entries[i..], lazyImages, dataSrc, supportsWebP).1 == Drain(entries, old(lazyImages), dataSrc, supportsWebP).1
        invariant observed == old(observed) - LoadedImages(started)
        invariant Valid()
      {
        var e := entries[i];
        DrainStep(entries, i, lazyImages, dataSrc, supportsWebP);
        if Ready(lazyImages, dataSrc, e) {
          ghost var request := LoadRequest(e.target, OptimizedSrc(dataSrc[e.target], lazyImages[e.target], supportsWebP));
          LoadedImagesAppend(started, request);
          started := started + [request];
        }
        Visit(e);
        i := i + 1;
      }
      assert entries[i..] == [];
      assert started == Drain(entries, old(lazyImages), dataSrc, supportsWebP).0;
    }

    /** One entry of the callback: a ready entry loads its image, stops being watched and stops being pending. */
    method Visit(e: Entry)
      modifies this
      ensures dataSrc == old(dataSrc) && observing == old(observing)
      ensures Ready(old(lazyImages), dataSrc, e) ==>
        && loads == old(loads) + [LoadRequest(e.target, OptimizedSrc(dataSrc[e.target], old(lazyImages)[e.target], supportsWebP))]
        && observed == old(observed) - {e.target}
        && lazyImages == old(lazyImages) - {e.target}
      ensures !Ready(old(lazyImages), dataSrc, e) ==>
        loads == old(loads) && observed == old(observed) && lazyImages == old(lazyImages)
    {
      if Ready(lazyImages, dataSrc, e) {
        loads := loads + [LoadRequest(e.target, OptimizedSrc(dataSrc[e.target], lazyImages[e.target], supportsWebP))];
        observed := observed - {e.target};
        lazyImages := lazyImages - {e.target};
      }
    }

    /** Disconnects the observer and forgets every pending image. */
    method Destroy()
      modifies this
      ensures Valid()
      ensures !observing && observed == {} && lazyImages == map[]
      ensures loads == old(loads) && dataSrc == old(dataSrc)
    {
      // Disconnecting stops the observer and drops every element it watched.
      observing := false;
      observed := {};
      lazyImages := map[];
    }

    /** A gallery over the caller's own list: the list is shared, not copied. */
    method CreateGallery(images: ImageList) returns (g: Gallery)
      ensures fresh(g) && g.images == images
    {
      g := new Gallery(images);
    }

    method CreateBeforeAfterComparison(before: string, after: string) returns (c: Comparison)
      ensures fresh(c) && c.beforeSrc == before && c.afterSrc == after
    {
      c := new Comparison();
      c.SetImages(before, after);
    }
  }

  // ---------------------------------------------------------------------------
  // Components

  datatype GalleryImage = GalleryImage(src: string, alt: string, caption: Option<string>, thumbnail: Option<string>)

  /** `images` with `index` removed when it is a position of `images`, unchanged otherwise. */
  function Removed(images: seq<GalleryImage>, index: int): (r: seq<GalleryImage>)
    ensures 0 <= index < |images| ==>
      |r| == |images| - 1 && r[..index] == images[..index] && (forall k | index <= k < |r| :: r[k] == images[k + 1])
    ensures 0 <= index < |images| ==> multiset(r) == multiset(images) - multiset{images[index]}
    ensures !(0 <= index < |images|) ==> r == images
  {
    if 0 <= index < |images| then
      assert images == images[..index] + [images[index]] + images[index + 1..];
      images[..index] + images[index + 1..]
    else images
  }

  /** Removing the image just added at the end restores the list. */
  lemma RemoveUndoesAdd(images: seq<GalleryImage>, image: GalleryImage)
    ensures Removed(images + [image], |images|) == images
  {
    assert (images + [image])[..|images|] == images;
  }

  /** An array of gallery images that several holders can share. */
  class ImageList {
    var items: seq<GalleryImage>

    constructor(items: seq<GalleryImage>)
      ensures this.items == items
    {
      this.items := items;
    }
  }

  class Gallery {
    const images: ImageList

    constructor(images: ImageList)
      ensures this.images == images
    {
      this.images := images;
    }

    /** `push`: one image at the end; the images before it stay. */
    method AddImage(image: GalleryImage)
      modifies images
      ensures images.items == old(images.items) + [image]
    {
      images.items := images.items + [image];
    }

    /** `splice(index, 1)` when `index` is a position of the list; otherwise nothing. */
    method RemoveImage(index: int)
      modifies images
      ensures images.items == Removed(old(images.items), index)
    {
      if index >= 0 && index < |images.items| {
        images.items := images.items[..index] + images.items[index + 1..];
      }
    }
  }

  class Comparison {
    var beforeSrc: string
    var afterSrc: string

    constructor()
      ensures beforeSrc == "" && afterSrc == ""
    {
      beforeSrc := "";
      afterSrc := "";
    }

    method SetImages(before: string, after: string)
      modifies this
      ensures beforeSrc == before && afterSrc == after
    {
      beforeSrc := before;
      afterSrc := after;
    }
  }
}
