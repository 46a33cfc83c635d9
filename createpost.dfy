/** The CreatePost dialog: choosing an image, cropping it to the fixed
    400x500 output, captioning it and posting it. Image decoding, the canvas
    render and JPEG encoding, the id generator and the clock are outside the
    model: their outcomes arrive as parameters. */
module CreateFlow {
  import opened PostModel
  import opened Storage

  /** The characters `String.prototype.trim` removes: ECMAScript white space
      and line terminators. */
  const Spaces: seq<char> := [
    '\t', '\n', '\U{000B}', '\U{000C}', '\r', ' ', '\U{00A0}', '\U{1680}',
    '\U{2000}', '\U{2001}', '\U{2002}', '\U{2003}', '\U{2004}', '\U{2005}',
    '\U{2006}', '\U{2007}', '\U{2008}', '\U{2009}', '\U{200A}',
    '\U{2028}', '\U{2029}', '\U{202F}', '\U{205F}', '\U{3000}', '\U{FEFF}'
  ]

  predicate IsSpace(c: char)
  {
    c in Spaces
  }

  /** The first index at or after `i` that is not white space (or the end). */
  function SkipStart(s: string, i: nat): (r: nat)
    requires i <= |s|
    ensures i <= r <= |s|
    ensures forall j :: i <= j < r ==> IsSpace(s[j])
    ensures r < |s| ==> !IsSpace(s[r])
    decreases |s| - i
  {
    if i < |s| && IsSpace(s[i]) then SkipStart(s, i + 1) else i
  }

  /** The end of `s[lo..hi]` once its trailing white space is dropped. */
  function SkipEnd(s: string, lo: nat, hi: nat): (r: nat)
    requires lo <= hi <= |s|
    ensures lo <= r <= hi
    ensures forall j :: r <= j < hi ==> IsSpace(s[j])
    ensures r > lo ==> !IsSpace(s[r - 1])
    decreases hi
  {
    if hi > lo && IsSpace(s[hi - 1]) then SkipEnd(s, lo, hi - 1) else hi
  }

  /** `s.trim()`: the middle slice of `s` left after dropping white space at
      both ends. */
  function Trim(s: string): (r: string)
    ensures var k := SkipStart(s, 0);
      k + |r| <= |s| && r == s[k..k + |r|] &&
      (forall i :: 0 <= i < k ==> IsSpace(s[i])) &&
      (forall i :: k + |r| <= i < |s| ==> IsSpace(s[i]))
    ensures r != [] ==> !IsSpace(r[0]) && !IsSpace(r[|r| - 1])
  {
    var k := SkipStart(s, 0);
    s[k..SkipEnd(s, k, |s|)]
  }

  /** A caption trims to nothing exactly when every character is white space. */
  lemma TrimEmptyIff(s: string)
    ensures Trim(s) == "" <==> forall i :: 0 <= i < |s| ==> IsSpace(s[i])
  {
    var r, k := Trim(s), SkipStart(s, 0);
    if r != "" {
      assert s[k] == r[0];
    }
  }

  /** The crop rectangle reported by the crop surface, in source pixels. */
  datatype CropArea = CropArea(x: int, y: int, width: int, height: int)

  /** The `drawImage` call that renders the crop: the source image, the
      rectangle taken from it, and the size of the canvas it fills. */
  datatype DrawCall = DrawCall(source: string, area: CropArea, width: int, height: int)

  /** Why `createCroppedImage` rejects. */
  datatype CropError = NoImage | ImageLoadError | CropAreaMissing

  datatype CropResult = Drawn(call: DrawCall) | Rejected(error: CropError)

  const TargetWidth := 400
  const TargetHeight := 500

  /** `createCroppedImage` with the render abstracted: it rejects when there
      is no preview, then when the preview fails to load (`imageLoads` is the
      outcome of that load), then when no crop area is set; otherwise it
      draws the crop area of the preview onto a 400x500 canvas. */
  function CreateCroppedImage(preview: string, cropArea: Option<CropArea>, imageLoads: bool): (r: CropResult)
    ensures r == Rejected(NoImage) <==> preview == ""
    ensures r == Rejected(ImageLoadError) <==> preview != "" && !imageLoads
    ensures r == Rejected(CropAreaMissing) <==> preview != "" && imageLoads && cropArea.None?
    ensures r.Drawn? ==>
      r.call.source == preview && cropArea == Some(r.call.area) &&
      r.call.width == 400 && r.call.height == 500
  {
    if preview == "" then Rejected(NoImage)
    else if !imageLoads then Rejected(ImageLoadError)
    else if cropArea.None? then Rejected(CropAreaMissing)
    else Drawn(DrawCall(preview, cropArea.value, TargetWidth, TargetHeight))
  }

  /** Rendering without a crop area never produces an image. */
  lemma NoAreaNoImage(preview: string, imageLoads: bool)
    ensures !CreateCroppedImage(preview, None, imageLoads).Drawn?
  {
  }

  /** Reached from "Done Cropping", which checks the crop area first, the
      crop-area rejection cannot happen, and a loaded preview always draws. */
  lemma DoneCroppingNeverMissesArea(preview: string, area: CropArea, imageLoads: bool)
    ensures CreateCroppedImage(preview, Some(area), imageLoads) != Rejected(CropAreaMissing)
    ensures preview != "" && imageLoads ==>
      CreateCroppedImage(preview, Some(area), imageLoads).Drawn?
  {
  }

  /** The guard of "Post": a non-empty cropped image and a caption that does
      not trim to nothing, that is, one with a character that is not white
      space. */
  predicate CanPost(croppedImage: Option<string>, caption: string)
    ensures CanPost(croppedImage, caption) <==>
      croppedImage.Some? && croppedImage.value != "" &&
      exists i :: 0 <= i < |caption| && !IsSpace(caption[i])
  {
    TrimEmptyIff(caption);
    croppedImage.Some? && croppedImage.value != "" && Trim(caption) != ""
  }

  class CreatePost {
    var imageUrl: string
    var caption: string
    var preview: string
    var croppedImage: Option<string>
    var cropAreaPixels: Option<CropArea>
    var isCropping: bool
    const storage: LocalStorage

    constructor (storage: LocalStorage)
      ensures this.storage == storage
      ensures imageUrl == "" && caption == "" && preview == ""
      ensures croppedImage == None && cropAreaPixels == None && !isCropping
    {
      this.storage := storage;
      imageUrl, caption, preview := "", "", "";
      croppedImage, cropAreaPixels, isCropping := None, None, false;
    }

    /** The file reader of `handleImageUpload` delivered `dataUrl`. A missing
        file or a read error changes nothing and has no counterpart here. */
    method FileLoaded(dataUrl: string)
      modifies this
      ensures imageUrl == dataUrl && preview == dataUrl && isCropping
      ensures caption == old(caption) && croppedImage == old(croppedImage)
      ensures cropAreaPixels == old(cropAreaPixels)
    {
      imageUrl := dataUrl;
      preview := dataUrl;
      isCropping := true;
    }

    /** `handleImageUrlInput`, synchronous part: the typed URL is kept and
        the preview cleared before the image is requested. */
    method ImageUrlInput(url: string)
      modifies this
      ensures imageUrl == url && preview == ""
      ensures isCropping == old(isCropping) && caption == old(caption)
      ensures croppedImage == old(croppedImage) && cropAreaPixels == old(cropAreaPixels)
    {
      imageUrl := url;
      preview := "";
    }

    /** The image requested for `url` loaded. Any earlier URL's image may be
        the one that arrives; a failed load changes nothing. */
    method UrlImageLoaded(url: string)
      modifies this
      ensures preview == url && isCropping
      ensures imageUrl == old(imageUrl) && caption == old(caption)
      ensures croppedImage == old(croppedImage) && cropAreaPixels == old(cropAreaPixels)
    {
      preview := url;
      isCropping := true;
    }

    /** `handleCropComplete`: the crop surface reports its rectangle. */
    method CropComplete(area: CropArea)
      modifies this
      ensures cropAreaPixels == Some(area)
      ensures imageUrl == old(imageUrl) && caption == old(caption) && preview == old(preview)
      ensures croppedImage == old(croppedImage) && isCropping == old(isCropping)
    {
      cropAreaPixels := Some(area);
    }

    /** The caption input changed. */
    method CaptionChanged(text: string)
      modifies this
      ensures caption == text
      ensures imageUrl == old(imageUrl) && preview == old(preview)
      ensures croppedImage == old(croppedImage) && cropAreaPixels == old(cropAreaPixels)
      ensures isCropping == old(isCropping)
    {
      caption := text;
    }

    /** `handleDoneCropping`. Without a crop area nothing changes. Otherwise
        the crop is rendered (`imageLoads` is the outcome of loading the
        preview, `encode` the canvas encoder); a rejection or an empty
        encoding changes nothing, and a result becomes both the cropped image
        and the preview and ends cropping. */
    method DoneCropping(imageLoads: bool, encode: DrawCall -> string)
      modifies this
      ensures old(cropAreaPixels).None? ==> unchanged(this)
      ensures old(cropAreaPixels).Some? ==>
        var c := CreateCroppedImage(old(preview), old(cropAreaPixels), imageLoads);
        if c.Rejected? || encode(c.call) == "" then unchanged(this)
        else
          croppedImage == Some(encode(c.call)) && preview == encode(c.call) && !isCropping &&
          imageUrl == old(imageUrl) && caption == old(caption) &&
          cropAreaPixels == old(cropAreaPixels)
    {
      if cropAreaPixels.None? {
        return;
      }
      var c := CreateCroppedImage(preview, cropAreaPixels, imageLoads);
      if c.Rejected? {
        return;
      }
      var img := encode(c.call);
      if img == "" {
        return;
      }
      croppedImage := Some(img);
      preview := img;
      isCropping := false;
    }

    /** `handlePost`. When the guard fails nothing changes and nothing is
        written. Otherwise the new record carries the given id and
        timestamp, the cropped image, the caption as typed and both flags
        off; it goes in front of what storage holds (nothing, when the key is
        missing); the form is reset; and the record is handed to the App. */
    method HandlePost(id: string, timestamp: string) returns (created: Option<Post>)
      modifies this, storage
      ensures !CanPost(old(croppedImage), old(caption)) ==>
        created == None && unchanged(this) && unchanged(storage)
      ensures CanPost(old(croppedImage), old(caption)) ==>
        created == Some(Post(id, old(croppedImage).value, old(caption), timestamp, false, false)) &&
        storage.posts == Some([created.value] + LoadPosts(old(storage.posts))) &&
        caption == "" && croppedImage == None && preview == "" && !isCropping &&
        imageUrl == old(imageUrl) && cropAreaPixels == old(cropAreaPixels)
    {
      if !CanPost(croppedImage, caption) {
        return None;
      }
      var newPost := Post(id, croppedImage.value, caption, timestamp, false, false);
      var storedPosts := LoadPosts(storage.posts);
      storage.posts := Some([newPost] + storedPosts);
      created := Some(newPost);
      caption := "";
      croppedImage := None;
      preview := "";
      isCropping := false;
    }
  }
}
