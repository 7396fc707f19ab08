/** Values shared by every part of the judge: languages, verdicts and Python-style outcomes. */
module JudgeTypes {

  datatype Option<+T> = None | Some(value: T)

  /** The exceptions a caller can tell apart: worker.py:60-65 drops a job on ValueError and
      retries it on anything else. */
  datatype Exception = ValueError | OtherError

  datatype Outcome<+T> = Returned(value: T) | Raised(error: Exception)

  datatype Language = C | Cpp | Python

  datatype Verdict =
    | PENDING
    | ACCEPTED
    | WRONG_ANSWER
    | TIME_LIMIT_EXCEEDED
    | MEMORY_LIMIT_EXCEEDED
    | COMPILATION_ERROR
    | RUNTIME_ERROR

  /** One value per language: a Python dictionary (or a family of Redis lists) keyed by Language. */
  datatype PerLanguage<+T> = PerLanguage(c: T, cpp: T, python: T) {
    function At(l: Language): T {
      match l
      case C => c
      case Cpp => cpp
      case Python => python
    }

    function With(l: Language, v: T): PerLanguage<T> {
      match l
      case C => this.(c := v)
      case Cpp => this.(cpp := v)
      case Python => this.(python := v)
    }
  }

  function One(b: bool): int { if b then 1 else 0 }

  function Max(a: int, b: int): int { if a < b then b else a }

  function Min(a: int, b: int): int { if b < a then b else a }
}

/** What the database keeps about a submission once it has been judged. */
module Records {
  import opened JudgeTypes

  /** The five columns `_update_submission_result` writes. */
  datatype Recorded = Recorded(
    verdict: Verdict,
    output: Option<string>,
    incorrectTestcaseKey: Option<string>,
    walltimeMs: Option<int>,
    memoryKb: Option<int>
  )

  /** A submission row as the API commits it. */
  const UNJUDGED := Recorded(PENDING, None, None, None, None)
}
