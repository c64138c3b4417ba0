/** The image helpers: the prompt sent with a product picture, the two
    whitish-pixel rules that stand in for background removal, the name the
    processed copy is saved under, and the batch loop. Opening, resizing and
    saving pictures and the calls to the image-generation service are
    outside the model; the batch loop takes their outcomes as parameters. */
module ImageProcessing {
  import opened Base
  import opened Text

  // ----- _create_gemini_prompt -----

  /** The fixed instructions around the scene description. */
  function BasePrompt(scenePrompt: string): string {
    "Place this product in " + scenePrompt + ". "
    + "Make it look professional and realistic. "
    + "The product should be the main focus in the scene. "
    + "The lighting should be consistent with natural shadows. "
    + "Make sure the image looks like a professional product photo."
  }

  /** `custom_options.get(key)` is truthy. */
  predicate HasOption(options: map<string, string>, key: string) {
    key in options && options[key] != ""
  }

  /** The sentences the four options add, each around the option's value. */
  function LightingSentence(v: string): string { " Use " + v + " lighting." }
  function AngleSentence(v: string): string { " Show the product from a " + v + " angle." }
  function StyleSentence(v: string): string { " The overall style should be " + v + "." }
  function ElementsSentence(v: string): string { " Include " + v + " in the scene." }

  function LightingClause(o: map<string, string>): string {
    if HasOption(o, "lighting") then LightingSentence(o["lighting"]) else ""
  }
  function AngleClause(o: map<string, string>): string {
    if HasOption(o, "angle") then AngleSentence(o["angle"]) else ""
  }
  function StyleClause(o: map<string, string>): string {
    if HasOption(o, "style") then StyleSentence(o["style"]) else ""
  }
  function ElementsClause(o: map<string, string>): string {
    if HasOption(o, "additional_elements") then ElementsSentence(o["additional_elements"]) else ""
  }

  /** `if custom_options:` — present and not empty. */
  predicate HasOptions(options: Option<map<string, string>>) {
    options.Some? && options.value != map[]
  }

  /** The prompt: the base text, then the four optional sentences in their
      fixed order. */
  function PromptText(scenePrompt: string, options: Option<map<string, string>>): string {
    if HasOptions(options) then
      var o := options.value;
      BasePrompt(scenePrompt) + LightingClause(o) + AngleClause(o) + StyleClause(o) + ElementsClause(o)
    else BasePrompt(scenePrompt)
  }

  /** `_create_gemini_prompt`, growing the prompt with `+=`. */
  method CreatePrompt(scenePrompt: string, options: Option<map<string, string>>) returns (prompt: string)
    ensures prompt == PromptText(scenePrompt, options)
  {
    prompt := BasePrompt(scenePrompt);
    if HasOptions(options) {
      var o := options.value;
      if HasOption(o, "lighting") {
        prompt := prompt + LightingSentence(o["lighting"]);
      }
      assert prompt == BasePrompt(scenePrompt) + LightingClause(o);
      if HasOption(o, "angle") {
        prompt := prompt + AngleSentence(o["angle"]);
      }
      assert prompt == BasePrompt(scenePrompt) + LightingClause(o) + AngleClause(o);
      if HasOption(o, "style") {
        prompt := prompt + StyleSentence(o["style"]);
      }
      assert prompt == BasePrompt(scenePrompt) + LightingClause(o) + AngleClause(o) + StyleClause(o);
      if HasOption(o, "additional_elements") {
        prompt := prompt + ElementsSentence(o["additional_elements"]);
      }
    }
  }

  /** Every prompt starts with the base text, which carries the scene
      description right after its opening words. */
  lemma PromptStartsWithScene(scenePrompt: string, options: Option<map<string, string>>)
    ensures var p := PromptText(scenePrompt, options);
            && StartsWith(p, BasePrompt(scenePrompt))
            && p[..22 + |scenePrompt|] == "Place this product in " + scenePrompt
  {
    var p := PromptText(scenePrompt, options);
    var b := BasePrompt(scenePrompt);
    assert p[..|b|] == b;
    assert b[..22 + |scenePrompt|] == "Place this product in " + scenePrompt;
  }

  /** The prompt is the base text exactly when none of the four options is
      set (which includes having no options at all); every option that is
      set lengthens it. */
  lemma PromptIsBaseExactly(scenePrompt: string, options: Option<map<string, string>>)
    ensures PromptText(scenePrompt, options) == BasePrompt(scenePrompt) <==>
      !HasOptions(options)
      || (var o := options.value;
          !HasOption(o, "lighting") && !HasOption(o, "angle") && !HasOption(o, "style")
          && !HasOption(o, "additional_elements"))
  {
    if HasOptions(options) {
      var o := options.value;
      var n := |LightingClause(o)| + |AngleClause(o)| + |StyleClause(o)| + |ElementsClause(o)|;
      assert |PromptText(scenePrompt, options)| == |BasePrompt(scenePrompt)| + n;
      assert n == 0 <==> LightingClause(o) == AngleClause(o) == StyleClause(o) == ElementsClause(o) == "";
    }
  }

  // ----- whitish pixels -----

  /** `white_threshold`. */
  const WhiteThreshold := 240

  /** A pixel as the image library hands it over; `alpha` is absent for a
      three-channel picture. */
  datatype Pixel = Pixel(r: int, g: int, b: int, alpha: Option<int>)

  datatype Rgba = Rgba(r: int, g: int, b: int, a: int)

  /** All three colour channels are above the threshold. */
  predicate Whitish(r: int, g: int, b: int) {
    r > WhiteThreshold && g > WhiteThreshold && b > WhiteThreshold
  }

  /** One pixel of `_simple_background_removal`: the colour kept, the alpha
      channel (added at 255 when missing) replaced by the mask. */
  function Masked(p: Pixel): Rgba {
    Rgba(p.r, p.g, p.b, if Whitish(p.r, p.g, p.b) then 0 else 255)
  }

  /** `_simple_background_removal` over rows of pixels. */
  function SimpleBackgroundRemoval(rows: seq<seq<Pixel>>): (out: seq<seq<Rgba>>)
    ensures |out| == |rows|
    ensures forall i | 0 <= i < |rows| :: |out[i]| == |rows[i]|
    ensures forall i, j | 0 <= i < |rows| && 0 <= j < |rows[i]| ::
      var p, q := rows[i][j], out[i][j];
      && q.r == p.r && q.g == p.g && q.b == p.b
      && (q.a == 0 <==> Whitish(p.r, p.g, p.b))
      && (q.a == 0 || q.a == 255)
  {
    seq(|rows|, i requires 0 <= i < |rows| => seq(|rows[i]|, j requires 0 <= j < |rows[i]| => Masked(rows[i][j])))
  }

  function AsPixel(q: Rgba): Pixel { Pixel(q.r, q.g, q.b, Some(q.a)) }

  /** Removing the background of a picture whose background was already
      removed changes nothing: the mask depends on the colours alone. */
  lemma SimpleBackgroundRemovalIdempotent(rows: seq<seq<Pixel>>)
    ensures var once := SimpleBackgroundRemoval(rows);
            SimpleBackgroundRemoval(seq(|once|, i requires 0 <= i < |once| =>
                                          seq(|once[i]|, j requires 0 <= j < |once[i]| => AsPixel(once[i][j]))))
            == once
  {
    var once := SimpleBackgroundRemoval(rows);
    var again := seq(|once|, i requires 0 <= i < |once| =>
                       seq(|once[i]|, j requires 0 <= j < |once[i]| => AsPixel(once[i][j])));
    var twice := SimpleBackgroundRemoval(again);
    forall i | 0 <= i < |once| ensures twice[i] == once[i] {
      forall j | 0 <= j < |once[i]| ensures twice[i][j] == once[i][j] {
        assert again[i][j] == AsPixel(once[i][j]);
      }
    }
  }

  /** The servers' `process_image` rule for one pixel: a whitish pixel
      becomes fully transparent white, any other pixel stays as it is. */
  function Cleared(p: Rgba): Rgba {
    if Whitish(p.r, p.g, p.b) then Rgba(255, 255, 255, 0) else p
  }

  /** The `newData` loop of `process_image` over the picture's pixels. */
  method ClearWhitish(data: seq<Rgba>) returns (newData: seq<Rgba>)
    ensures |newData| == |data|
    ensures forall k | 0 <= k < |data| :: newData[k] == Cleared(data[k])
  {
    newData := [];
    var k := 0;
    while k < |data|
      invariant 0 <= k <= |data|
      invariant |newData| == k
      invariant forall m | 0 <= m < k :: newData[m] == Cleared(data[m])
    {
      var item := data[k];
      if item.r > 240 && item.g > 240 && item.b > 240 {
        newData := newData + [Rgba(255, 255, 255, 0)];
      } else {
        newData := newData + [item];
      }
      k := k + 1;
    }
  }

  /** The two rules make the same pixels transparent. On an opaque picture
      they agree on every alpha value; they differ in that `process_image`
      paints the transparent pixels white and keeps the others' alpha, while
      `_simple_background_removal` keeps every colour and makes the others
      opaque. A cleared pixel is cleared again to itself. */
  lemma ClearingAgreesWithMask(p: Rgba)
    ensures (Cleared(p).a == 0 && Whitish(p.r, p.g, p.b)) <==> Masked(AsPixel(p)).a == 0
    ensures p.a == 255 ==> Cleared(p).a == Masked(AsPixel(p)).a
    ensures !Whitish(p.r, p.g, p.b) ==> Cleared(p) == p
    ensures Cleared(Cleared(p)) == Cleared(p)
  {
  }

  // ----- remove_background's file name -----

  /** `os.path.join(processed_folder, f"processed_{basename.split('.')[0]}.png")`. */
  function ProcessedFilename(processedFolder: string, imagePath: string): (path: string)
    ensures var stem := BeforeFirst(AfterLast(imagePath, '/'), '.');
            && StartsWith(path, processedFolder)
            && AfterLast(path, '/') == "processed_" + stem + ".png"
            && '.' !in stem && '/' !in stem
  {
    var base := AfterLast(imagePath, '/');
    var stem := BeforeFirst(base, '.');
    AfterLastSegment(imagePath, '/');
    var name := "processed_" + stem + ".png";
    assert '/' !in name by {
      assert forall c | c in stem :: c in base;
    }
    PathJoinName(processedFolder, name);
    PathJoin(processedFolder, name)
  }

  /** The file name part of a join is the joined name when it has no `/`. */
  lemma PathJoinName(folder: string, name: string)
    requires '/' !in name
    ensures AfterLast(PathJoin(folder, name), '/') == name
  {
    var r := PathJoin(folder, name);
    if folder == [] {
      AfterLastSegment(name, '/');
    } else if folder[|folder| - 1] == '/' {
      AfterLastAt(r, '/', |folder| - 1);
      assert r[|folder|..] == name;
    } else {
      AfterLastAt(r, '/', |folder|);
      assert r[|folder| + 1..] == name;
    }
  }

  // ----- batch_process -----

  /** The outcome of one pair: `None` when removing the background
      (`opens`: the picture could be opened) or generating the scene
      (`generate`: the path of the generated picture, or `None` when the
      service raised) failed. */
  function BatchItem(processedFolder: string, path: string, scene: string,
                     opens: string -> bool, generate: (string, string) -> Option<string>): Option<string>
  {
    if opens(path) then generate(ProcessedFilename(processedFolder, path), scene) else None
  }

  /** `batch_process`: the pairs of `zip(image_paths, scene_prompts)` one
      after the other, a failure recorded as `None` without stopping. */
  method BatchProcess(processedFolder: string, paths: seq<string>, scenes: seq<string>,
                      opens: string -> bool, generate: (string, string) -> Option<string>)
    returns (results: seq<Option<string>>)
    ensures |results| == Min(|paths|, |scenes|)
    ensures forall i | 0 <= i < |results| ::
      results[i] == BatchItem(processedFolder, paths[i], scenes[i], opens, generate)
  {
    results := [];
    var i := 0;
    var n := if |paths| < |scenes| then |paths| else |scenes|;
    while i < n
      invariant 0 <= i <= n
      invariant |results| == i
      invariant forall k | 0 <= k < i :: results[k] == BatchItem(processedFolder, paths[k], scenes[k], opens, generate)
    {
      results := results + [BatchItem(processedFolder, paths[i], scenes[i], opens, generate)];
      i := i + 1;
    }
  }
}
