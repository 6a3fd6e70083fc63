/**
 * The scene planner (plan/scene_writer.py): the clip records a scene plan is
 * made of, the two optional sections `SceneWriter._build_prompt_sections`
 * inserts into the Gemini prompt, and the check `generate` makes on the
 * response text. Optional text fields hold "" where the source has None; the
 * code only ever tests them for truthiness.
 */
module SceneWriter {
  import opened Wrappers
  import opened Text

  datatype Shot = Shot(composition: string, cameraMotion: string, camera: string)
  datatype Subject = Subject(description: string, wardrobe: string)
  datatype Scene = Scene(location: string, timeOfDay: string, environment: string)
  datatype VisualDetails = VisualDetails(action: string, props: string)
  datatype Cinematography = Cinematography(lighting: string, tone: string, colorGrade: string)
  datatype AudioTrack = AudioTrack(lyrics: string, emotion: string, flow: string)
  datatype Dialogue = Dialogue(character: string, line: string)

  /** A clip of a scene plan, with the fields the executor reads. */
  datatype Clip = Clip(
    id: string,
    shot: Shot,
    subject: Subject,
    scene: Scene,
    visual: VisualDetails,
    cinematography: Cinematography,
    audioTrack: AudioTrack,
    dialogue: Dialogue,
    aspectRatio: string)

  /**
   * The optional inputs of `generate`. `characterReferences` holds each
   * reference profile already rendered as a JSON object.
   */
  datatype SceneInputs = SceneInputs(
    characterDescription: string,
    characterCharacteristics: string,
    additionalContext: string,
    characterReferences: seq<string>,
    videoType: string,
    videoCharacteristics: string,
    cameraAngle: string)

  const NoInputsLine: string := "- (no additional structured inputs provided)"
  const DescriptionTag: string := "- Character Description: "
  const PersonalityTag: string := "- Character Personality: "
  const VideoTypeTag: string := "- Video Type: "
  const StyleTag: string := "- Target Style: "
  const CameraTag: string := "- Primary Camera Perspective: "
  const ContextTag: string := "- Additional instructions: "
  const EmptyResponseMessage: string := "Gemini scene writer returned an empty response"

  /** `[prefix + value.strip()]` when `value` is truthy, else nothing. */
  function StrippedLine(prefix: string, value: string): (lines: seq<string>)
    ensures |lines| == if value != [] then 1 else 0
  {
    if value != [] then [prefix + Strip(value)] else []
  }

  function CameraGuidance(angle: string): string {
    "- When describing coverage, respect the primary perspective " + Strip(angle) + " while still varying shot sizes."
  }

  /** `"- Character References:\n" + json.dumps(data, indent=2)`, with the dump as a parameter. */
  function ReferencesLine(references: seq<string>, dumps: seq<string> -> string): string {
    "- Character References:\n" + dumps(references)
  }

  /** The structured input lines, in the order the source appends them. */
  function InputLines(inputs: SceneInputs, dumps: seq<string> -> string): seq<string> {
    StrippedLine(DescriptionTag, inputs.characterDescription)
    + StrippedLine(PersonalityTag, inputs.characterCharacteristics)
    + StrippedLine(VideoTypeTag, inputs.videoType)
    + StrippedLine(StyleTag, inputs.videoCharacteristics)
    + StrippedLine(CameraTag, inputs.cameraAngle)
    + (if inputs.characterReferences != [] then [ReferencesLine(inputs.characterReferences, dumps)] else [])
  }

  /** The guidance lines: the camera perspective, then the additional instructions. */
  function GuidanceLines(inputs: SceneInputs): seq<string> {
    (if inputs.cameraAngle != [] then [CameraGuidance(inputs.cameraAngle)] else [])
    + StrippedLine(ContextTag, inputs.additionalContext)
  }

  /**
   * `_build_prompt_sections`: collect the input and guidance lines, then join
   * each list with newlines. Empty inputs become the placeholder line and
   * empty guidance the empty string; non-empty guidance starts on a new line.
   */
  method BuildPromptSections(inputs: SceneInputs, dumps: seq<string> -> string)
    returns (optionalInputs: string, customGuidance: string)
    ensures var lines := InputLines(inputs, dumps);
      optionalInputs == if lines != [] then Join(lines, "\n") else NoInputsLine
    ensures var lines := GuidanceLines(inputs);
      customGuidance == if lines != [] then "\n" + Join(lines, "\n") else ""
    ensures customGuidance == [] || customGuidance[0] == '\n'
  {
    var inputLines, guidanceLines := CollectLines(inputs, dumps);
    optionalInputs := if inputLines != [] then Join(inputLines, "\n") else NoInputsLine;
    customGuidance := if guidanceLines != [] then "\n" + Join(guidanceLines, "\n") else "";
  }

  /**
   * The appending part of `_build_prompt_sections`. Each `if value:
   * lines.append(...)` step is one `StrippedLine`, which is empty for a falsy value.
   */
  method CollectLines(inputs: SceneInputs, dumps: seq<string> -> string)
    returns (inputLines: seq<string>, guidanceLines: seq<string>)
    ensures inputLines == InputLines(inputs, dumps)
    ensures guidanceLines == GuidanceLines(inputs)
  {
    inputLines := StrippedLine(DescriptionTag, inputs.characterDescription);
    inputLines := inputLines + StrippedLine(PersonalityTag, inputs.characterCharacteristics);
    inputLines := inputLines + StrippedLine(VideoTypeTag, inputs.videoType);
    inputLines := inputLines + StrippedLine(StyleTag, inputs.videoCharacteristics);
    inputLines := inputLines + StrippedLine(CameraTag, inputs.cameraAngle);
    guidanceLines := [];
    if inputs.cameraAngle != [] {
      guidanceLines := [CameraGuidance(inputs.cameraAngle)];
    }
    if inputs.characterReferences != [] {
      inputLines := inputLines + [ReferencesLine(inputs.characterReferences, dumps)];
    }
    guidanceLines := guidanceLines + StrippedLine(ContextTag, inputs.additionalContext);
  }

  /** One flag per optional input, as the number of lines it contributes. */
  function Flag(present: bool): nat {
    if present then 1 else 0
  }

  /** Each truthy input contributes exactly one input line; the additional context contributes none. */
  lemma InputLineCount(inputs: SceneInputs, dumps: seq<string> -> string)
    ensures |InputLines(inputs, dumps)| ==
      Flag(inputs.characterDescription != []) + Flag(inputs.characterCharacteristics != [])
      + Flag(inputs.videoType != []) + Flag(inputs.videoCharacteristics != [])
      + Flag(inputs.cameraAngle != []) + Flag(inputs.characterReferences != [])
  {
  }

  /** Only the camera angle and the additional context produce guidance, one line each. */
  lemma GuidanceLineCount(inputs: SceneInputs)
    ensures |GuidanceLines(inputs)| == Flag(inputs.cameraAngle != []) + Flag(inputs.additionalContext != [])
  {
  }

  /** With every input given, the lines come in the fixed order, each value stripped. */
  lemma InputLinesInOrder(inputs: SceneInputs, dumps: seq<string> -> string)
    requires inputs.characterDescription != [] && inputs.characterCharacteristics != []
    requires inputs.videoType != [] && inputs.videoCharacteristics != []
    requires inputs.cameraAngle != [] && inputs.characterReferences != []
    ensures InputLines(inputs, dumps) == [
      DescriptionTag + Strip(inputs.characterDescription),
      PersonalityTag + Strip(inputs.characterCharacteristics),
      VideoTypeTag + Strip(inputs.videoType),
      StyleTag + Strip(inputs.videoCharacteristics),
      CameraTag + Strip(inputs.cameraAngle),
      ReferencesLine(inputs.characterReferences, dumps)]
    ensures GuidanceLines(inputs)[0] == CameraGuidance(inputs.cameraAngle)
  {
  }

  /** Without optional inputs the sections are the placeholder line and nothing. */
  lemma NoInputsGiveDefaults(dumps: seq<string> -> string)
    ensures InputLines(SceneInputs([], [], [], [], [], [], []), dumps) == []
    ensures GuidanceLines(SceneInputs([], [], [], [], [], [], [])) == []
  {
  }

  /** The additional context reaches the guidance and never the inputs. */
  lemma ContextIsGuidanceOnly(inputs: SceneInputs, dumps: seq<string> -> string, context: string)
    requires context != []
    ensures InputLines(inputs.(additionalContext := context), dumps) == InputLines(inputs, dumps)
    ensures var g := GuidanceLines(inputs.(additionalContext := context));
      |g| > 0 && g[|g| - 1] == ContextTag + Strip(context)
  {
  }

  /** `raw = result.text; if not raw: raise RuntimeError(...)`; a missing text is "". */
  function CheckResponse(raw: string): (r: Result<string>)
    ensures r.Err? <==> raw == []
    ensures r.Err? ==> r.error == RuntimeError(EmptyResponseMessage)
    ensures r.Ok? ==> r.value == raw
  {
    if raw == [] then Err(RuntimeError(EmptyResponseMessage)) else Ok(raw)
  }
}
