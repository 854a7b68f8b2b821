/** The memory-gallery lightbox of script.js: the list of gallery images
    gathered at load time and the index of the one shown, set by
    `openLightbox` from a substring search and moved by next / previous
    with wraparound. */
module Lightbox {
  import opened Analytics
  import opened Wrap

  /** One entry of `lightboxImages`. */
  datatype Image = Image(src: string, title: string, description: string)

  /** `initializeMemoryGallery`: one entry per gallery item, title and
      description left empty. */
  function GalleryImages(srcs: seq<string>): (images: seq<Image>)
    ensures |images| == |srcs|
    ensures forall k :: 0 <= k < |srcs| ==> images[k] == Image(srcs[k], "", "")
  {
    if srcs == [] then [] else [Image(srcs[0], "", "")] + GalleryImages(srcs[1..])
  }

  /** `s.includes(sub)`: `sub` occurs in `s` at some offset. */
  predicate Includes(s: string, sub: string)
    ensures Includes(s, sub) ==> |sub| <= |s|
    ensures sub == "" ==> Includes(s, sub)
  {
    assert sub == "" ==> IsPrefixAt(s, sub, 0);
    exists i :: 0 <= i <= |s| - |sub| && IsPrefixAt(s, sub, i)
  }

  predicate IsPrefixAt(s: string, sub: string, i: int)
    requires 0 <= i <= |s| - |sub|
  {
    s[i..i + |sub|] == sub
  }

  /** `lightboxImages.findIndex(img => img.src.includes(imageSrc))`, from
      position `from` on. */
  function FindFrom(images: seq<Image>, imageSrc: string, from: nat): (r: int)
    requires from <= |images|
    ensures r == -1 || from <= r < |images|
    ensures r == -1 <==> forall k :: from <= k < |images| ==> !Includes(images[k].src, imageSrc)
    ensures r >= 0 ==> Includes(images[r].src, imageSrc) &&
                       forall k :: from <= k < r ==> !Includes(images[k].src, imageSrc)
    decreases |images| - from
  {
    if from == |images| then -1
    else if Includes(images[from].src, imageSrc) then from
    else FindFrom(images, imageSrc, from + 1)
  }

  function FindIndex(images: seq<Image>, imageSrc: string): (r: int)
    ensures r == -1 || 0 <= r < |images|
    ensures r == -1 <==> forall k :: 0 <= k < |images| ==> !Includes(images[k].src, imageSrc)
    ensures r >= 0 ==> Includes(images[r].src, imageSrc) &&
                       forall k :: 0 <= k < r ==> !Includes(images[k].src, imageSrc)
  {
    FindFrom(images, imageSrc, 0)
  }

  /** An image whose full source is asked for is always found, at or
      before its own position. */
  lemma FindIndexOfOwnSource(images: seq<Image>, k: nat)
    requires k < |images|
    ensures 0 <= FindIndex(images, images[k].src) <= k
  {
    assert IsPrefixAt(images[k].src, images[k].src, 0);
  }

  /** JavaScript's `title || 'Gallery Image'`. */
  function TitleOrDefault(title: string): (t: string)
    ensures t != ""
    ensures title != "" ==> t == title
    ensures title == "" ==> t == "Gallery Image"
  {
    if title == "" then "Gallery Image" else title
  }

  class LightboxState {
    var lightboxImages: seq<Image>
    var currentLightboxIndex: int

    /** The index is -1 (nothing matched) or names an image; before any
        image exists it may still be the initial 0. */
    ghost predicate Valid()
      reads this
    {
      -1 <= currentLightboxIndex &&
      (currentLightboxIndex < |lightboxImages| || currentLightboxIndex <= 0)
    }

    /** The state once `initializeMemoryGallery` has run over the gallery
        items whose image sources are `srcs`. */
    constructor (srcs: seq<string>)
      ensures Valid()
      ensures lightboxImages == GalleryImages(srcs) && currentLightboxIndex == 0
    {
      lightboxImages := GalleryImages(srcs);
      currentLightboxIndex := 0;
    }

    /** `openLightbox(imageSrc, title)`: find the first image whose source
        contains `imageSrc` (-1 if none) and log lightbox_opened. */
    method OpenLightbox(imageSrc: string, title: string, log: WebsiteAnalytics, at: string)
      requires Valid() && log.Valid()
      modifies this, log
      ensures Valid() && log.Valid()
      ensures lightboxImages == old(lightboxImages)
      ensures currentLightboxIndex == FindIndex(lightboxImages, imageSrc)
      ensures log.State() == Logged(old(log.State()), LightboxOpened(imageSrc, TitleOrDefault(title), at))
    {
      currentLightboxIndex := FindIndex(lightboxImages, imageSrc);
      log.LogInteraction(LightboxOpened(imageSrc, TitleOrDefault(title), at));
    }

    /** `updateLightboxImage()`: show the current image and log
        lightbox_navigation. The direction it logs is always "next", also
        when called from `prevLightboxImage`. */
    method UpdateLightboxImage(log: WebsiteAnalytics, at: string) returns (shown: Image)
      requires 0 <= currentLightboxIndex < |lightboxImages| && log.Valid()
      modifies log
      ensures log.Valid()
      ensures shown == lightboxImages[currentLightboxIndex]
      ensures log.State() == Logged(old(log.State()), LightboxNavigation("next", currentLightboxIndex, at))
    {
      shown := lightboxImages[currentLightboxIndex];
      log.LogInteraction(LightboxNavigation("next", currentLightboxIndex, at));
    }

    /** `prevLightboxImage()`. */
    method PrevLightboxImage(log: WebsiteAnalytics, at: string) returns (shown: Image)
      requires Valid() && |lightboxImages| > 0 && log.Valid()
      modifies this, log
      ensures Valid() && log.Valid()
      ensures lightboxImages == old(lightboxImages)
      ensures currentLightboxIndex == PrevIndex(old(currentLightboxIndex), |lightboxImages|)
      ensures InRange(currentLightboxIndex, |lightboxImages|)
      ensures shown == lightboxImages[currentLightboxIndex]
      ensures log.State() == Logged(old(log.State()), LightboxNavigation("next", currentLightboxIndex, at))
    {
      StepsLandInRange(currentLightboxIndex, |lightboxImages|);
      currentLightboxIndex := PrevIndex(currentLightboxIndex, |lightboxImages|);
      shown := UpdateLightboxImage(log, at);
    }

    /** `nextLightboxImage()`. */
    method NextLightboxImage(log: WebsiteAnalytics, at: string) returns (shown: Image)
      requires Valid() && |lightboxImages| > 0 && log.Valid()
      modifies this, log
      ensures Valid() && log.Valid()
      ensures lightboxImages == old(lightboxImages)
      ensures currentLightboxIndex == NextIndex(old(currentLightboxIndex), |lightboxImages|)
      ensures InRange(currentLightboxIndex, |lightboxImages|)
      ensures shown == lightboxImages[currentLightboxIndex]
      ensures log.State() == Logged(old(log.State()), LightboxNavigation("next", currentLightboxIndex, at))
    {
      StepsLandInRange(currentLightboxIndex, |lightboxImages|);
      currentLightboxIndex := NextIndex(currentLightboxIndex, |lightboxImages|);
      shown := UpdateLightboxImage(log, at);
    }
  }
}
