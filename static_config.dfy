/** The static model list shared by the factory, the graph nodes and the
    configuration fallbacks. */
module StaticConfig {

  /** `LITERAL_MODELS` */
  const LiteralModels: seq<string> := ["claude-4-sonnet", "google-gemini-2.5-pro"]

  /** `str(LITERAL_MODELS)`, as the graph nodes print it. */
  const LiteralModelsText: string := "['claude-4-sonnet', 'google-gemini-2.5-pro']"
}
