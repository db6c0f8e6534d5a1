/** Text made of whole lines at its front, and how splitting on newlines takes them off. */
module LeadLines {
  import opened Types
  import opened Strings

  /** Lines written out one after another, each followed by a newline. */
  function Lead(ls: seq<string>): string {
    if ls == [] then [] else ls[0] + "\n" + Lead(ls[1..])
  }

  /** Splitting on newlines takes the lead lines off the front, one by one. */
  lemma {:induction false} SplitLeadLines(ls: seq<string>, body: string)
    requires forall i :: 0 <= i < |ls| ==> '\n' !in ls[i]
    ensures Split(Lead(ls) + body, "\n") == ls + Split(body, "\n")
    decreases |ls|
  {
    if ls == [] {
      assert Lead(ls) + body == body;
    } else {
      var rest := Lead(ls[1..]) + body;
      assert Lead(ls) + body == ls[0] + ['\n'] + rest;
      SplitAtFirst(ls[0], '\n', rest);
      SplitLeadLines(ls[1..], body);
      AppendAssoc([ls[0]], ls[1..], Split(body, "\n"));
      assert ls == [ls[0]] + ls[1..];
    }
  }
}
