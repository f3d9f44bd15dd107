/**
 * The AI model the service consults, seen only through its two operations
 * `validate_prompt` and `generate_image`. Its answers are given as functions
 * of the arguments, and every call is logged, so that a contract can say which
 * operations a run of the service asked for.
 */
module Oracle {
  import opened Wrappers
  import opened Os

  /** What `validate_prompt` answers: whether the prompt is allowed, and optionally why not. */
  type Verdict = (bool, Option<string>)

  /** What `generate_image` does: return the new image, or raise an exception with a message. */
  datatype Generation = Generated(image: seq<byte>) | Failed(message: string)

  class AIModel {
    /** The answer to `validate_prompt(prompt)`. */
    const judge: string -> Verdict
    /** The outcome of `generate_image(prompt, image_path)`. */
    const painter: (string, string) -> Generation
    /** The prompts passed to `validate_prompt`, oldest first. */
    var validateCalls: seq<string>
    /** The (prompt, image path) pairs passed to `generate_image`, oldest first. */
    var generateCalls: seq<(string, string)>

    constructor (judge: string -> Verdict, painter: (string, string) -> Generation)
      ensures this.judge == judge && this.painter == painter
      ensures validateCalls == [] && generateCalls == []
    {
      this.judge := judge;
      this.painter := painter;
      validateCalls := [];
      generateCalls := [];
    }

    method ValidatePrompt(prompt: string) returns (valid: bool, reason: Option<string>)
      modifies this`validateCalls
      ensures (valid, reason) == judge(prompt)
      ensures validateCalls == old(validateCalls) + [prompt]
    {
      valid, reason := judge(prompt).0, judge(prompt).1;
      validateCalls := validateCalls + [prompt];
    }

    method GenerateImage(prompt: string, imagePath: string) returns (g: Generation)
      modifies this`generateCalls
      ensures g == painter(prompt, imagePath)
      ensures generateCalls == old(generateCalls) + [(prompt, imagePath)]
    {
      g := painter(prompt, imagePath);
      generateCalls := generateCalls + [(prompt, imagePath)];
    }
  }
}
