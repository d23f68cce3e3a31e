/** The unit tests of `readPositionalFile`, as lemmas about the model. */
module PositionalTests {

  import opened Wrappers
  import opened Positional

  /** `["bun", "index.ts"]`: failure with the missing-file message. */
  lemma NoPositionalArgProvided()
    ensures !ReadPositionalFile(["bun", "index.ts"]).success
    ensures ReadPositionalFile(["bun", "index.ts"]).message == Some(NoConfigFileProvidedMsg)
  {
  }

  /** `["bun", "index.ts", "config.json", "extra"]`: success, the path, and the warning. */
  lemma TooManyPositionalArgsProvided()
    ensures ReadPositionalFile(["bun", "index.ts", "config.json", "extra"]).success
    ensures ReadPositionalFile(["bun", "index.ts", "config.json", "extra"]).positional == Some("config.json")
    ensures ReadPositionalFile(["bun", "index.ts", "config.json", "extra"]).message == Some(AdditionalArgsMsg)
  {
  }

  /** `["bun", "index.ts", "config.json"]`: success with the path. */
  lemma PositionalArgProvided()
    ensures ReadPositionalFile(["bun", "index.ts", "config.json"]).success
    ensures ReadPositionalFile(["bun", "index.ts", "config.json"]).positional == Some("config.json")
  {
  }
}
