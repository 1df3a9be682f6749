/** The image service: the style and resolution tables, the prompt sent to the
    image model, the upscale decision, and the placeholder image drawn when
    generation fails. Image generation, download and decoding enter as one
    call that may raise and otherwise yields the decoded image's size; text
    measurement enters as the measured bounding box. */
module ImageService {

  import opened Common
  import opened Text
  import Decimal

  datatype Size = Size(width: int, height: int)

  const Resolutions: map<string, Size> :=
    map["hd" := Size(1920, 1080), "2k" := Size(2560, 1440),
        "4k" := Size(3840, 2160), "8k" := Size(7680, 4320)]

  /** Size used when the resolution key is unknown (the 4k entry). */
  const DefaultSize: Size := Size(3840, 2160)

  const Photorealistic := "photorealistic, highly detailed, professional photography"
  const Artistic := "artistic, creative, expressive art style"
  const ConceptArt := "concept art, detailed illustration, professional design"
  const Anime := "anime style, detailed anime artwork"
  const Render3d := "3D rendered, realistic lighting, high quality render"
  const OilPainting := "oil painting style, classical art technique"
  const Cyberpunk := "cyberpunk aesthetic, neon lights, futuristic"
  const Fantasy := "fantasy art, magical, ethereal atmosphere"

  const StylePrompts: map<string, string> :=
    map["photorealistic" := Photorealistic, "artistic" := Artistic,
        "concept-art" := ConceptArt, "anime" := Anime, "3d-render" := Render3d,
        "oil-painting" := OilPainting, "cyberpunk" := Cyberpunk, "fantasy" := Fantasy]

  /** Description used for a style outside the table. */
  const DefaultStyle := "high quality artwork"

  /** `self.resolutions.get(resolution, (3840, 2160))`. */
  function TargetSize(resolution: string): (s: Size)
    ensures resolution == "hd" ==> s == Size(1920, 1080)
    ensures resolution == "2k" ==> s == Size(2560, 1440)
    ensures resolution == "4k" ==> s == Size(3840, 2160)
    ensures resolution == "8k" ==> s == Size(7680, 4320)
    ensures resolution !in {"hd", "2k", "4k", "8k"} ==> s == DefaultSize
  {
    GetOr(Resolutions, resolution, DefaultSize)
  }

  /** An unknown resolution key behaves exactly like "4k". */
  lemma UnknownResolutionIs4k(resolution: string)
    requires resolution !in Resolutions
    ensures TargetSize(resolution) == TargetSize("4k")
  {
  }

  /** `style_prompts.get(style, 'high quality artwork')`. */
  function StyleDescription(style: string): (d: string)
    ensures style in StylePrompts ==> d == StylePrompts[style]
    ensures style !in StylePrompts ==> d == DefaultStyle
    ensures style == "photorealistic" ==> d == Photorealistic
    ensures style == "fantasy" ==> d == Fantasy
  {
    GetOr(StylePrompts, style, DefaultStyle)
  }

  /** `f"{prompt}, {style_desc}"`: the prompt, a comma and a space, then the
      style description. */
  function EnhancedPrompt(prompt: string, style: string): (s: string)
    ensures |s| == |prompt| + 2 + |StyleDescription(style)|
    ensures s[..|prompt|] == prompt && s[|prompt|..|prompt| + 2] == ", "
    ensures s[|prompt| + 2..] == StyleDescription(style)
  {
    prompt + ", " + StyleDescription(style)
  }

  /** The size after the upscale step: resized to exactly the target when the
      target is wider or taller than the image, unchanged otherwise. */
  function Upscaled(image: Size, target: Size): (s: Size)
    ensures target.width > image.width || target.height > image.height ==> s == target
    ensures target.width <= image.width && target.height <= image.height ==> s == image
  {
    if target.width > image.width || target.height > image.height then target else image
  }

  /** After the upscale step the image is at least as large as the target in
      both dimensions, and a second upscale changes nothing. */
  lemma UpscaledCoversTarget(image: Size, target: Size)
    ensures Upscaled(image, target).width >= target.width
    ensures Upscaled(image, target).height >= target.height
    ensures Upscaled(Upscaled(image, target), target) == Upscaled(image, target)
  {
  }

  datatype ImageResult = ImageResult(
    url: string,
    filename: string,
    resolution: string,
    megapixels: real)

  /** `f"{width}x{height}"`: the width, an `x`, then the height; the `x` is
      the only one in the label, and both numbers read back from it. */
  function SizeLabel(s: Size): (l: string)
    ensures var w := Decimal.IntToString(s.width);
            && |w| < |l| && l[|w|] == 'x' && 'x' !in w && 'x' !in l[|w| + 1..]
            && Decimal.ParseInt(l[..|w|]) == Some(s.width)
            && Decimal.ParseInt(l[|w| + 1..]) == Some(s.height)
  {
    var w, h := Decimal.IntToString(s.width), Decimal.IntToString(s.height);
    var l := w + "x" + h;
    assert l[..|w|] == w && l[|w| + 1..] == h;
    Decimal.IntRoundTrip(s.width);
    Decimal.IntRoundTrip(s.height);
    RenderingHasNoX(s.width);
    RenderingHasNoX(s.height);
    l
  }

  lemma RenderingHasNoX(n: int)
    ensures 'x' !in Decimal.IntToString(n)
  {
    if n < 0 {
      assert Decimal.IntToString(n) == "-" + Decimal.NatToString(-n);
    }
  }

  /** `(width * height) / 1_000_000`, before rounding to one decimal. */
  function Megapixels(s: Size): real
  {
    (s.width * s.height) as real / 1000000.0
  }

  function ImageUrl(filename: string): string
  {
    "/api/outputs/images/" + filename
  }

  // ---------------------------------------------------------------------------
  // placeholder image

  /** `a // b` in Python for a positive divisor: rounds toward minus infinity,
      computed from the magnitude so that it does not rely on Dafny's own
      division of negative numbers. */
  function FloorDiv(a: int, b: int): (q: int)
    requires b > 0
  {
    if a >= 0 then (a as nat / b as nat) as int
    else -(((-a + b - 1) as nat / b as nat) as int)
  }

  /** Halving the way the placeholder is centred: Python's `// 2` is
      Dafny's Euclidean division by two, and leaves a remainder of 0 or 1. */
  lemma FloorDivByTwo(a: int)
    ensures FloorDiv(a, 2) == a / 2
    ensures 2 * FloorDiv(a, 2) <= a <= 2 * FloorDiv(a, 2) + 1
  {
  }

  const BrandLines := "ArciTEK.AI\n\n"
  const DemoLines := "\n\nDemo Image\n"

  /** The text written on the placeholder: the brand line, at most 100
      characters of the prompt, the demo line and the size label. */
  function DemoText(prompt: string, target: Size): (t: string)
    ensures var shown := if |prompt| < 100 then |prompt| else 100;
            var d := |BrandLines| + shown;
            && |t| == d + |DemoLines| + |SizeLabel(target)|
            && t[..|BrandLines|] == BrandLines && t[|BrandLines|..d] == prompt[..shown]
            && t[d..d + |DemoLines|] == DemoLines && t[d + |DemoLines|..] == SizeLabel(target)
  {
    var shown := Take(prompt, 100);
    var sizeLine := SizeLabel(target);
    Concat4(BrandLines, shown, DemoLines, sizeLine);
    BrandLines + shown + DemoLines + sizeLine
  }

  /** The four pieces of a concatenation sit at consecutive slices. */
  lemma Concat4(a: string, b: string, c: string, d: string)
    ensures var t := a + b + c + d;
            var i, j, k := |a|, |a| + |b|, |a| + |b| + |c|;
            && |t| == k + |d|
            && t[..i] == a && t[i..j] == b && t[j..k] == c && t[k..] == d
  {
  }

  /** Where the placeholder text is drawn, `((W - tw) // 2, (H - th) // 2)`:
      centred to within one pixel, so the margin on the right (below) equals
      the margin on the left (above) or exceeds it by one, and inside the
      image whenever the text fits. */
  function TextPosition(target: Size, box: Size): (p: Size)
    ensures var right := target.width - box.width - p.width;
            var bottom := target.height - box.height - p.height;
            && (right == p.width || right == p.width + 1)
            && (bottom == p.height || bottom == p.height + 1)
            && (box.width <= target.width ==> p.width >= 0)
            && (box.height <= target.height ==> p.height >= 0)
  {
    FloorDivByTwo(target.width - box.width);
    FloorDivByTwo(target.height - box.height);
    Size(FloorDiv(target.width - box.width, 2), FloorDiv(target.height - box.height, 2))
  }

  /** `ImageService._create_demo_image`: the placeholder at the target size of
      the resolution key. `draw` stands for creating the canvas, measuring the
      text and drawing it centred, yielding the measured box; the centring
      arithmetic is `TextPosition`, stated on its own. `demoSave` stands for
      saving the PNG. Nothing here is inside a `try`, so either failure
      propagates out of the method. */
  function DemoImage(prompt: string, resolution: string, draw: string -> Call<Size>,
                     demoSave: Call<()>, filename: string): (r: Call<ImageResult>)
    ensures var drawn := draw(DemoText(prompt, TargetSize(resolution)));
            && (r.Returned? <==> drawn.Returned? && demoSave.Returned?)
            && (drawn.Raised? ==> r == Raised(drawn.message))
            && (drawn.Returned? && demoSave.Raised? ==> r == Raised(demoSave.message))
    ensures r.Returned? ==>
              r.value.url == ImageUrl(filename) && r.value.filename == filename
              && r.value.resolution == SizeLabel(TargetSize(resolution))
              && r.value.megapixels == Megapixels(TargetSize(resolution))
  {
    var target := TargetSize(resolution);
    var _ :- draw(DemoText(prompt, target));
    var _ :- demoSave;
    Returned(ImageResult(ImageUrl(filename), filename, SizeLabel(target), Megapixels(target)))
  }

  /** `ImageService.generate`. `render` stands for image generation, download
      and decoding, yielding the decoded size; `saved` for whether saving the
      PNG succeeded; `filename` and `demoFilename` are the clock-based names of
      the generated and the placeholder file. Any failure inside the `try`
      falls back to the placeholder, so `generate` raises only when drawing or
      saving the placeholder raises. */
  function Generate(prompt: string, style: string, resolution: string,
                    render: string -> Call<Size>, saved: bool, filename: string,
                    draw: string -> Call<Size>, demoSave: Call<()>, demoFilename: string)
    : (r: Call<ImageResult>)
    ensures render(EnhancedPrompt(prompt, style)).Raised? || !saved ==>
              r == DemoImage(prompt, resolution, draw, demoSave, demoFilename)
    ensures render(EnhancedPrompt(prompt, style)).Returned? && saved ==>
              var final := Upscaled(render(EnhancedPrompt(prompt, style)).value, TargetSize(resolution));
              r == Returned(ImageResult(ImageUrl(filename), filename, SizeLabel(final), Megapixels(final)))
    ensures r.Raised? <==>
              (render(EnhancedPrompt(prompt, style)).Raised? || !saved)
              && DemoImage(prompt, resolution, draw, demoSave, demoFilename).Raised?
  {
    match render(EnhancedPrompt(prompt, style))
    case Raised(_) => DemoImage(prompt, resolution, draw, demoSave, demoFilename)
    case Returned(image) =>
      if !saved then DemoImage(prompt, resolution, draw, demoSave, demoFilename)
      else
        var final := Upscaled(image, TargetSize(resolution));
        Returned(ImageResult(ImageUrl(filename), filename, SizeLabel(final), Megapixels(final)))
  }

  /** Whichever path `generate` returns on, the reported size is at least the
      target size of the resolution key in both dimensions. */
  lemma GenerateMeetsTarget(prompt: string, style: string, resolution: string,
                            render: string -> Call<Size>, saved: bool, filename: string,
                            draw: string -> Call<Size>, demoSave: Call<()>, demoFilename: string)
    ensures var r := Generate(prompt, style, resolution, render, saved, filename, draw, demoSave, demoFilename);
            r.Returned? ==>
              exists s: Size ::
                r.value.resolution == SizeLabel(s)
                && s.width >= TargetSize(resolution).width && s.height >= TargetSize(resolution).height
  {
    var r := Generate(prompt, style, resolution, render, saved, filename, draw, demoSave, demoFilename);
    var c := render(EnhancedPrompt(prompt, style));
    if c.Returned? && saved {
      var final := Upscaled(c.value, TargetSize(resolution));
      UpscaledCoversTarget(c.value, TargetSize(resolution));
      assert r.value.resolution == SizeLabel(final);
    } else if r.Returned? {
      assert r.value.resolution == SizeLabel(TargetSize(resolution));
    }
  }
}
