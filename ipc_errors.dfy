/**
 * How the main process turns a failed request to the inference server into
 * the `{message, details}` object it sends on the `error` channel and throws
 * back to the renderer. Three handlers do this: `ollama:list-models`,
 * `ollama:chat` and `ollama:generate`.
 */
module IpcErrors {
  import opened Common

  /** A failure reported by the HTTP client: its `code` (absent for errors
      that carry none) and its `message`. */
  datatype Failure = Failure(code: Option<string>, message: string)

  /** The object sent on `error` and thrown to the renderer. */
  datatype ErrorInfo = ErrorInfo(message: string, details: string)

  const ConnectionRefused := "ECONNREFUSED"

  predicate IsConnectionRefused(f: Failure)
  {
    f.code == Some(ConnectionRefused)
  }

  predicate EndsWith(s: string, suffix: string)
  {
    |suffix| <= |s| && s[|s| - |suffix|..] == suffix
  }

  /** `ollama:list-models`: the headline says whether the server could be
      reached at all; the details always end with the client's message. */
  function ListModelsError(f: Failure): (r: ErrorInfo)
    ensures r.message == "Unable to connect to Ollama" <==> IsConnectionRefused(f)
    ensures r.message == "Failed to fetch models" <==> !IsConnectionRefused(f)
    ensures EndsWith(r.details, f.message)
  {
    if IsConnectionRefused(f) then
      ErrorInfo("Unable to connect to Ollama",
        "Please make sure Ollama is running and accessible at http://127.0.0.1:11434. Error: " + f.message)
    else
      ErrorInfo("Failed to fetch models", "Error: " + f.message)
  }

  /** The details shared by the chat and generate handlers: the client's
      message, with a prefix when the connection was refused. */
  function ConnectionDetails(f: Failure): (r: string)
    ensures EndsWith(r, f.message)
    ensures !IsConnectionRefused(f) ==> r == f.message
    ensures IsConnectionRefused(f) ==> r == "Unable to connect to Ollama. Error: " + f.message
    ensures IsConnectionRefused(f) ==> |r| > |f.message|
  {
    if IsConnectionRefused(f) then "Unable to connect to Ollama. Error: " + f.message
    else f.message
  }

  /** `ollama:chat`: the headline is always "Chat failed". */
  function ChatError(f: Failure): (r: ErrorInfo)
    ensures r.message == "Chat failed"
    ensures r.details == ConnectionDetails(f)
  {
    ErrorInfo("Chat failed", ConnectionDetails(f))
  }

  /** `ollama:generate`: the headline is always "Generation failed". */
  function GenerateError(f: Failure): (r: ErrorInfo)
    ensures r.message == "Generation failed"
    ensures r.details == ConnectionDetails(f)
  {
    ErrorInfo("Generation failed", ConnectionDetails(f))
  }

  /** For two failures with the same client message, the chat (and generate)
      details tell a refused connection apart from any other failure. */
  lemma DetailsRevealRefusal(f: Failure, g: Failure)
    requires f.message == g.message
    ensures ConnectionDetails(f) == ConnectionDetails(g) <==> (IsConnectionRefused(f) <==> IsConnectionRefused(g))
  {
    if IsConnectionRefused(f) && !IsConnectionRefused(g) {
      assert |ConnectionDetails(f)| > |ConnectionDetails(g)|;
    } else if !IsConnectionRefused(f) && IsConnectionRefused(g) {
      assert |ConnectionDetails(g)| > |ConnectionDetails(f)|;
    }
  }

  /** The chat and generate handlers agree on the details and differ only in
      their headline. */
  lemma ChatAndGenerateShareDetails(f: Failure)
    ensures ChatError(f).details == GenerateError(f).details
    ensures ChatError(f).message != GenerateError(f).message
  {
  }
}
