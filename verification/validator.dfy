/** `validate_lazy_data_dict`: the shape check on a worksheet record. */
module Validator {
  import opened Results
  import opened PyValues

  /** The key-set literal of the source. It names 'exercise_type' twice, so it holds nine keys. */
  const RequiredKeys: set<string> :=
    {"title", "instructions", "main_text_final", "question_title", "removed_words_final",
     "answer_title", "answers_final", "exercise_type", "url", "exercise_type"}

  /** Nine distinct keys, counted as two disjoint groups of four and "url". */
  lemma RequiredKeysCount()
    ensures |RequiredKeys| == 9
  {
    var first := {"title", "instructions", "main_text_final", "question_title"};
    var next := {"removed_words_final", "answer_title", "answers_final", "exercise_type"};
    FirstFourKeys();
    NextFourKeys();
    assert first * next == {};
    assert |first + next| == 8;
    Grow(first + next, "url", 8);
    assert RequiredKeys == first + next + {"url"};
  }

  lemma FirstFourKeys()
    ensures |{"title", "instructions", "main_text_final", "question_title"}| == 4
  {
    Grow({"title"}, "instructions", 1);
    Grow({"title", "instructions"}, "main_text_final", 2);
    Grow({"title", "instructions", "main_text_final"}, "question_title", 3);
  }

  lemma NextFourKeys()
    ensures |{"removed_words_final", "answer_title", "answers_final", "exercise_type"}| == 4
  {
    Grow({"removed_words_final"}, "answer_title", 1);
    Grow({"removed_words_final", "answer_title"}, "answers_final", 2);
    Grow({"removed_words_final", "answer_title", "answers_final"}, "exercise_type", 3);
  }

  /** Adding a key that is not yet present grows a set by one. */
  lemma Grow(keys: set<string>, key: string, n: nat)
    requires |keys| == n && key !in keys
    ensures |keys + {key}| == n + 1
  {
  }

  /** Fails with "input not dict" when the input is not a dict, and otherwise with "incomplete keys"
      when `expectedKeys ∩ keys != expectedKeys`. The required set is a parameter, as the tests call it;
      the builders pass `RequiredKeys`. */
  function ValidateLazyDataDict(input: PyValue, expectedKeys: set<string>): (r: Outcome)
    ensures !input.Dict? ==> r == Fail(PdfException("input not dict"))
    ensures input.Dict? ==> (r == Pass <==> expectedKeys <= input.entries.Keys)
    ensures input.Dict? ==> (r == Fail(PdfException("incomplete keys")) <==> exists k :: k in expectedKeys && k !in input.entries)
    ensures r.Fail? ==> r.error.IsPdfException()
  {
    if !input.Dict? then Fail(PdfException("input not dict"))
    else if expectedKeys * input.entries.Keys != expectedKeys then Fail(PdfException("incomplete keys"))
    else Pass
  }

  /** A record that passes still passes with more keys: extra keys never cause a failure. */
  lemma ExtraKeysAccepted(entries: map<string, PyValue>, more: map<string, PyValue>, expectedKeys: set<string>, shown: string, shown': string)
    requires ValidateLazyDataDict(Dict(entries, shown), expectedKeys) == Pass
    requires entries.Keys <= more.Keys
    ensures ValidateLazyDataDict(Dict(more, shown'), expectedKeys) == Pass
  {
  }

  /** Only the keys matter: every record holding all nine required keys passes, whatever the values. */
  lemma AnyValuesAccepted(entries: map<string, PyValue>, shown: string)
    requires RequiredKeys <= entries.Keys
    ensures ValidateLazyDataDict(Dict(entries, shown), RequiredKeys) == Pass
  {
  }

  /** The passing record of the tests: the nine keys, each mapped to 1. */
  lemma TestRecordAccepted()
    ensures ValidateLazyDataDict(Dict(map["title" := Int(1), "instructions" := Int(1),
      "main_text_final" := Int(1), "question_title" := Int(1), "removed_words_final" := Int(1),
      "answer_title" := Int(1), "answers_final" := Int(1), "url" := Int(1), "exercise_type" := Int(1)], ""),
      RequiredKeys) == Pass
  {
  }

  /** The tests' record with only the first six keys fails with "incomplete keys". */
  lemma TestRecordMissingKeysRejected()
    ensures ValidateLazyDataDict(Dict(map["title" := Int(1), "instructions" := Int(1),
      "main_text_final" := Int(1), "question_title" := Int(1), "removed_words_final" := Int(1),
      "answer_title" := Int(1)], ""), RequiredKeys) == Fail(PdfException("incomplete keys"))
  {
    var m := map["title" := Int(1), "instructions" := Int(1),
      "main_text_final" := Int(1), "question_title" := Int(1), "removed_words_final" := Int(1),
      "answer_title" := Int(1)];
    assert "url" in RequiredKeys && "url" !in m;
  }

  /** The tests' list `['not a dict!']` fails with "input not dict". */
  lemma TestListRejected()
    ensures ValidateLazyDataDict(List("['not a dict!']"), RequiredKeys) == Fail(PdfException("input not dict"))
  {
  }
}
