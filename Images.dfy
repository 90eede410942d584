/** The gallery's ordered list of results and the in-place record updates
    the post-processing handlers make with `imgs.map(img => img.id === id ? {...img, ...} : img)`. */
module Images {
  import opened Types

  /** The fields an object spread `{...img, f: v}` sets; `None` leaves the field alone. */
  datatype Patch = Patch(
    src: Option<JsString>,
    originalSrc: Option<JsString>,
    isUpscaling: Option<bool>,
    isRemovingBackground: Option<bool>)

  /** `{...img, <fields of p>}`. */
  function Apply(img: GeneratedImage, p: Patch): (r: GeneratedImage)
    ensures r.id == img.id && r.angle == img.angle
    ensures r.src == (if p.src.Some? then p.src.value else img.src)
    ensures r.originalSrc == (if p.originalSrc.Some? then p.originalSrc else img.originalSrc)
    ensures r.isUpscaling == (if p.isUpscaling.Some? then p.isUpscaling.value else img.isUpscaling)
    ensures r.isRemovingBackground ==
            (if p.isRemovingBackground.Some? then p.isRemovingBackground.value else img.isRemovingBackground)
  {
    img.(src := p.src.GetOr(img.src),
         originalSrc := if p.originalSrc.Some? then p.originalSrc else img.originalSrc,
         isUpscaling := p.isUpscaling.GetOr(img.isUpscaling),
         isRemovingBackground := p.isRemovingBackground.GetOr(img.isRemovingBackground))
  }

  /** The fields of `q` override those of `p`. */
  function Then(p: Patch, q: Patch): Patch {
    Patch(if q.src.Some? then q.src else p.src,
          if q.originalSrc.Some? then q.originalSrc else p.originalSrc,
          if q.isUpscaling.Some? then q.isUpscaling else p.isUpscaling,
          if q.isRemovingBackground.Some? then q.isRemovingBackground else p.isRemovingBackground)
  }

  /** The map over the list: every record whose id is `id` gets the patch,
      every other record is left exactly as it was, and the order is kept. */
  function PatchById(imgs: seq<GeneratedImage>, id: JsString, p: Patch): (r: seq<GeneratedImage>)
    ensures |r| == |imgs|
    ensures forall k :: 0 <= k < |imgs| && imgs[k].id != id ==> r[k] == imgs[k]
    ensures forall k :: 0 <= k < |imgs| && imgs[k].id == id ==> r[k] == Apply(imgs[k], p)
  {
    if imgs == [] then []
    else [if imgs[0].id == id then Apply(imgs[0], p) else imgs[0]] + PatchById(imgs[1..], id, p)
  }

  /** Two successive maps over the same id are one map with the merged patch. */
  lemma {:induction false} PatchByIdThen(imgs: seq<GeneratedImage>, id: JsString, p: Patch, q: Patch)
    ensures PatchById(PatchById(imgs, id, p), id, q) == PatchById(imgs, id, Then(p, q))
    decreases |imgs|
  {
    if imgs != [] {
      PatchByIdThen(imgs[1..], id, p, q);
      ApplyThen(imgs[0], p, q);
      var once := PatchById(imgs, id, p);
      assert once == [once[0]] + PatchById(imgs[1..], id, p);
      assert once[1..] == PatchById(imgs[1..], id, p);
    }
  }

  /** Applying `p` and then `q` to a record is applying their merge. */
  lemma ApplyThen(img: GeneratedImage, p: Patch, q: Patch)
    ensures Apply(Apply(img, p), q) == Apply(img, Then(p, q))
  {
  }

  /** A patch never changes a record's id or angle, so the list keeps its
      identities and the order of its angles. */
  lemma PatchKeepsIdentity(imgs: seq<GeneratedImage>, id: JsString, p: Patch)
    ensures forall k :: 0 <= k < |imgs| ==>
      PatchById(imgs, id, p)[k].id == imgs[k].id && PatchById(imgs, id, p)[k].angle == imgs[k].angle
  {
  }

  /** `imgs.find(img => img.id === id)`: the first record with that id, if any. */
  function FindById(imgs: seq<GeneratedImage>, id: JsString): (r: Option<GeneratedImage>)
    ensures r.None? <==> forall k :: 0 <= k < |imgs| ==> imgs[k].id != id
    ensures r.Some? ==> exists k :: 0 <= k < |imgs| && imgs[k] == r.value && r.value.id == id &&
                                    forall j :: 0 <= j < k ==> imgs[j].id != id
  {
    if imgs == [] then None
    else if imgs[0].id == id then Some(imgs[0])
    else
      var r := FindById(imgs[1..], id);
      assert r.Some? ==> exists k :: 0 <= k < |imgs| - 1 && imgs[1..][k] == r.value && r.value.id == id &&
                                     forall j :: 0 <= j < k ==> imgs[1..][j].id != id;
      assert r.None? ==> forall k :: 0 <= k < |imgs| - 1 ==> imgs[1..][k].id != id;
      r
  }

  /** What a successful upscale sets on the matching records: the new source,
      the source before the call as `originalSrc`, and the flag cleared by the
      clean-up. */
  function Upscaled(before: JsString, payload: JsString): Patch {
    Patch(Some(DataUrl(payload)), Some(before), Some(false), None)
  }

  /** The upscale button's own enabling condition for a record: no call in
      progress on it and no truthy `originalSrc` (absent or the empty string). */
  predicate UpscaleButtonEnabled(img: GeneratedImage)
    ensures img.isUpscaling || img.isRemovingBackground ==> !UpscaleButtonEnabled(img)
    ensures img.originalSrc.Some? && img.originalSrc.value != [] ==> !UpscaleButtonEnabled(img)
    ensures !img.isUpscaling && !img.isRemovingBackground && img.originalSrc.None? ==> UpscaleButtonEnabled(img)
  {
    !img.isUpscaling && (img.originalSrc.None? || img.originalSrc.value == []) && !img.isRemovingBackground
  }

  /** Each successful upscale overwrites `originalSrc` with the source it
      started from: two upscales in a row leave the intermediate result as
      the baseline, not the first one. */
  lemma UpscaleTwiceOverwritesBaseline(img: GeneratedImage, first: JsString, second: JsString)
    ensures var once := Apply(img, Upscaled(img.src, first));
            Apply(once, Upscaled(once.src, second)).originalSrc == Some(DataUrl(first))
  {
  }

  /** The baseline of the first upscale is kept only because the button is
      disabled afterwards: after one upscale of a record with a non-empty
      source (every source the application stores is a data URL) the record
      no longer enables it. */
  lemma UpscaleDisablesButton(img: GeneratedImage, payload: JsString)
    requires UpscaleButtonEnabled(img) && img.src != []
    ensures var once := Apply(img, Upscaled(img.src, payload));
            !UpscaleButtonEnabled(once) && once.originalSrc == Some(img.src) && once.src == DataUrl(payload)
  {
  }
}
