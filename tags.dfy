/** Editing a list of short texts from a text box, as the CV form does with
    skills (components/user/cv-form.tsx) and the job form with requirements
    (components/admin/job-form.tsx): add the trimmed box content when it is
    new, remove every copy of a text. */
module Tags {
  import Text
  import Seqs

  /** No text occurs twice. */
  predicate NoDuplicates(tags: seq<string>) {
    forall t :: t in tags ==> multiset(tags)[t] <= 1
  }

  /** Every text is non-blank and carries no surrounding white space. */
  predicate AllTrimmed(tags: seq<string>) {
    forall t :: t in tags ==> t != "" && Text.Trim(t) == t
  }

  /** The lists the editing operations keep well formed. */
  predicate Valid(tags: seq<string>) {
    NoDuplicates(tags) && AllTrimmed(tags)
  }

  /** Whether the Add button changes the list. */
  predicate Accepts(tags: seq<string>, pending: string) {
    Text.Trim(pending) != "" && Text.Trim(pending) !in tags
  }

  /** The new list and the new box content after pressing Add. */
  datatype Edit = Edit(tags: seq<string>, pending: string)

  /** `addSkill` / `addRequirement`: the trimmed box content is appended and
      the box cleared exactly when that content is non-blank and not yet
      listed; otherwise list and box stay as they were. */
  function Add(tags: seq<string>, pending: string): (r: Edit)
    ensures Accepts(tags, pending) ==> r.tags == tags + [Text.Trim(pending)] && r.pending == ""
    ensures !Accepts(tags, pending) ==> r == Edit(tags, pending)
  {
    var t := Text.Trim(pending);
    if t != "" && t !in tags then Edit(tags + [t], "") else Edit(tags, pending)
  }

  /** Adding never introduces a blank or a duplicate text. */
  lemma AddKeepsValid(tags: seq<string>, pending: string)
    requires Valid(tags)
    ensures Valid(Add(tags, pending).tags)
  {
    var t := Text.Trim(pending);
    if Accepts(tags, pending) {
      Text.TrimIdempotent(pending);
      var r := tags + [t];
      assert multiset(r) == multiset(tags) + multiset{t};
      assert multiset(tags)[t] == 0;
    }
  }

  /** `removeSkill` / `removeRequirement`: every copy of `tag` goes, the
      other texts stay in order. */
  function Remove(tags: seq<string>, tag: string): (r: seq<string>)
    ensures Seqs.IsSubsequence(r, tags)
    ensures forall t :: t in r <==> t in tags && t != tag
    ensures forall t :: multiset(r)[t] == if t != tag then multiset(tags)[t] else 0
  {
    var r := Seqs.Filter(tags, (s: string) => s != tag);
    forall t ensures t in r <==> t in tags && t != tag {
      Seqs.FilterMembership(tags, (s: string) => s != tag, t);
    }
    r
  }

  /** Removing keeps the list well formed. */
  lemma RemoveKeepsValid(tags: seq<string>, tag: string)
    requires Valid(tags)
    ensures Valid(Remove(tags, tag))
  {
    var r := Seqs.Filter(tags, (s: string) => s != tag);
    assert forall t :: multiset(r)[t] <= multiset(tags)[t];
  }

  /** Removing a text that is not listed changes nothing. */
  lemma RemoveAbsent(tags: seq<string>, tag: string)
    requires tag !in tags
    ensures Remove(tags, tag) == tags
  {
    Seqs.FilterAll(tags, (s: string) => s != tag);
  }

  /** Removing what was just added gives back the list as it was. */
  lemma RemoveUndoesAdd(tags: seq<string>, pending: string)
    requires Accepts(tags, pending)
    ensures Remove(Add(tags, pending).tags, Text.Trim(pending)) == tags
  {
    var t := Text.Trim(pending);
    Seqs.FilterAppend(tags, t, (s: string) => s != t);
    RemoveAbsent(tags, t);
  }

  /** Pressing Add twice with the same content adds it once. */
  lemma AddTwiceAddsOnce(tags: seq<string>, pending: string)
    ensures Add(Add(tags, pending).tags, pending).tags == Add(tags, pending).tags
  {
  }
}
