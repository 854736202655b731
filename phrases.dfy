/**
 * The trigger phrases of the speech handler and the containment test that
 * matches them against recognized text: substring containment of one phrase,
 * and "some phrase of the list is contained" over a list.
 */
module Phrases {

  /** Phrases that ask for a description of the scene. */
  const CommandPhrases: seq<string> :=
    ["what is happening", "describe", "what's in front of me",
     "tell me about this", "what do you see", "can you describe"]

  /** Phrases that ask for the report. */
  const ReportPhrases: seq<string> :=
    ["what's the report", "give me the report", "tell me the report"]

  /** Phrases that ask about what happened at some time. */
  const TimePhrases: seq<string> :=
    ["what happened on", "actions at", "description from",
     "what occurred at", "show me from", "tell me about"]

  /** `p` occurs in `t` at index `i`. */
  predicate OccursAt(t: string, p: string, i: nat) {
    i + |p| <= |t| && t[i..i + |p|] == p
  }

  /** Substring containment, Python's `p in t` for two strings. */
  predicate Contains(t: string, p: string) {
    exists i :: 0 <= i <= |t| - |p| && OccursAt(t, p, i)
  }

  /**
   * Scans the phrases left to right; holds exactly when one of them is
   * contained in `text`.
   */
  function ContainsAny(text: string, phrases: seq<string>): (r: bool)
    ensures r <==> exists k :: 0 <= k < |phrases| && Contains(text, phrases[k])
  {
    if |phrases| == 0 then false
    else if Contains(text, phrases[0]) then true
    else
      var rest := ContainsAny(text, phrases[1..]);
      assert forall k :: 1 <= k < |phrases| ==> phrases[k] == phrases[1..][k - 1];
      rest
  }

  /** Containment is transitive: a text holding `q` holds every part of `q`. */
  lemma ContainsTransitive(t: string, q: string, p: string)
    requires Contains(t, q) && Contains(q, p)
    ensures Contains(t, p)
  {
    var i :| 0 <= i <= |t| - |q| && OccursAt(t, q, i);
    var j :| 0 <= j <= |q| - |p| && OccursAt(q, p, j);
    assert forall k :: 0 <= k < |p| ==> t[i + j + k] == q[j + k] == p[k];
    assert OccursAt(t, p, i + j);
  }

  /** A phrase with a character that the text lacks is not contained in it. */
  lemma MissingCharNotContained(t: string, p: string, c: char)
    requires c in p && c !in t
    ensures !Contains(t, p)
  {
  }

  /** A text that starts with `p` contains it. */
  lemma PrefixContained(t: string, p: string)
    requires |p| <= |t| && t[..|p|] == p
    ensures Contains(t, p)
  {
    assert OccursAt(t, p, 0);
  }

  /**
   * The command phrase "tell me about this" contains the time phrase
   * "tell me about", so every text holding that command phrase also holds a
   * time phrase.
   */
  lemma TellMeAboutThisIsAlsoTime(text: string)
    requires Contains(text, "tell me about this")
    ensures ContainsAny(text, CommandPhrases)
    ensures ContainsAny(text, TimePhrases)
  {
    assert CommandPhrases[3] == "tell me about this";
    assert TimePhrases[5] == "tell me about";
    PrefixContained("tell me about this", "tell me about");
    ContainsTransitive(text, "tell me about this", "tell me about");
  }
}
