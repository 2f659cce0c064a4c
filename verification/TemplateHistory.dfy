/** Template versions: apps/api/src/communications/communication-templates.service.ts, for one template. */
module TemplateHistory {
  import opened Tables

  datatype Content = Content(subject: Option<string>, body: string)

  /** A history row: the content that a change replaced. */
  datatype Entry = Entry(version: int, content: Content)

  /** The template row with its history rows in order of insertion; a history row's identifier is its position. */
  datatype Template = Template(active: bool, content: Content, history: seq<Entry>)

  datatype Edit = Edit(subject: Option<string>, body: Option<string>)

  /** lastHistory.version: the greatest version so far, or 0. */
  function LastVersion(history: seq<Entry>): int {
    if history == [] then 0
    else
      var last, before := history[|history| - 1].version, LastVersion(history[..|history| - 1]);
      if last >= before then last else before
  }

  /** The template with new content and a history row for the content it had. */
  function Changed(t: Template, content: Content): Template {
    t.(content := content, history := t.history + [Entry(LastVersion(t.history) + 1, t.content)])
  }

  function Edited(c: Content, e: Edit): Content {
    Content(if e.subject.Some? then e.subject else c.subject, if e.body.Some? then e.body.value else c.body)
  }

  /** valid says whether the template sandbox accepts the new body; an absent or empty body is not checked. */
  datatype Op = Update(edit: Edit, valid: bool) | Rollback(entry: Id) | Delete

  predicate Accepts(t: Template, op: Op) {
    && t.active
    && (op.Update? && op.edit.body.Some? && op.edit.body.value != "" ==> op.valid)
    && (op.Rollback? ==> op.entry < |t.history|)
  }

  function Step(t: Template, op: Op): Template {
    if !Accepts(t, op) then t
    else
      match op
      case Update(e, _) => Changed(t, Edited(t.content, e))
      case Rollback(entry) => Changed(t, t.history[entry].content)
      case Delete => t.(active := false)
  }

  /** The template after the first n operations. */
  function After(t: Template, ops: seq<Op>, n: nat): Template
    requires n <= |ops|
  {
    if n == 0 then t else Step(After(t, ops, n - 1), ops[n - 1])
  }

  class TemplatesService {
    var active: bool
    var content: Content
    var history: seq<Entry>

    constructor (content: Content)
      ensures Value() == Template(true, content, [])
    {
      active, this.content, history := true, content, [];
    }

    function Value(): Template
      reads this
    {
      Template(active, content, history)
    }

    method UpdateTemplate(e: Edit, valid: bool) returns (ok: bool)
      modifies this
      ensures ok == Accepts(old(Value()), Update(e, valid)) && Value() == Step(old(Value()), Update(e, valid))
    {
      if !active {
        return false;
      }
      if e.body.Some? && e.body.value != "" && !valid {
        return false;
      }
      var nextVersion := LastVersion(history) + 1;
      var existing := content;
      if e.subject.Some? {
        content := content.(subject := e.subject);
      }
      if e.body.Some? {
        content := content.(body := e.body.value);
      }
      history := history + [Entry(nextVersion, existing)];
      ok := true;
    }

    method RollbackTemplate(entry: Id) returns (ok: bool)
      modifies this
      ensures ok == Accepts(old(Value()), Rollback(entry)) && Value() == Step(old(Value()), Rollback(entry))
    {
      if !active || entry >= |history| {
        return false;
      }
      var historyEntry := history[entry];
      var nextVersion := LastVersion(history) + 1;
      var existing := content;
      content := historyEntry.content;
      history := history + [Entry(nextVersion, existing)];
      ok := true;
    }

    method DeleteTemplate() returns (ok: bool)
      modifies this
      ensures ok == Accepts(old(Value()), Delete) && Value() == Step(old(Value()), Delete)
    {
      ok := active;
      active := false;
    }
  }

  /** The versions are 1, 2, ..., n in order. */
  predicate Numbered(history: seq<Entry>) {
    forall i :: 0 <= i < |history| ==> history[i].version == i + 1
  }

  lemma {:induction false} LastOfNumbered(history: seq<Entry>)
    requires Numbered(history)
    ensures LastVersion(history) == |history|
    decreases |history|
  {
    if history == [] {
    } else {
      LastOfNumbered(history[..|history| - 1]);
    }
  }

  /** Over every sequence of updates, rollbacks and deletions the versions are exactly 1 to n. */
  lemma {:induction false} VersionsAreConsecutive(t: Template, ops: seq<Op>, n: nat)
    requires Numbered(t.history) && n <= |ops|
    ensures Numbered(After(t, ops, n).history)
  {
    if n == 0 {
    } else {
      VersionsAreConsecutive(t, ops, n - 1);
      LastOfNumbered(After(t, ops, n - 1).history);
    }
  }

  /** The content that version number k + 1 replaced, or the current one if there has been no such change yet. */
  function ContentBeforeChange(t: Template, k: nat): Content {
    if k < |t.history| then t.history[k].content else t.content
  }

  /**
   No content is ever lost: what was current after m operations is, after any n operations more, either still
   current or stored in the history row of the change that came next, and no earlier history row has moved.
   */
  lemma {:induction false} NothingIsLost(t: Template, ops: seq<Op>, m: nat, n: nat)
    requires m <= n <= |ops|
    ensures var earlier, later := After(t, ops, m), After(t, ops, n);
            earlier.history <= later.history && ContentBeforeChange(later, |earlier.history|) == earlier.content
    decreases n
  {
    if m == n {
    } else {
      NothingIsLost(t, ops, m, n - 1);
    }
  }

  /** Rolling back to the newest entry undoes the last accepted change of content. */
  lemma RollbackUndoes(t: Template, op: Op)
    requires Accepts(t, op) && !op.Delete?
    ensures var changed := Step(t, op);
            var undone := Step(changed, Rollback(|t.history|));
            undone.content == t.content && |undone.history| == |t.history| + 2
  {
  }

  /** A deleted template never changes again. */
  lemma {:induction false} DeletedIsFinal(t: Template, ops: seq<Op>, n: nat)
    requires !t.active && n <= |ops|
    ensures After(t, ops, n) == t
  {
    if n == 0 {
    } else {
      DeletedIsFinal(t, ops, n - 1);
    }
  }

  /** An update replaces the fields it gives and no others; one with an invalid body or on a deleted template, none. */
  lemma UpdateReplacesGiven(t: Template, e: Edit, valid: bool)
    ensures var refused := !t.active || (e.body.Some? && |e.body.value| > 0 && !valid);
            var now := Step(t, Update(e, valid));
            && (refused ==> now == t)
            && (!refused ==> |now.history| == |t.history| + 1)
            && now.content.subject == (if refused || e.subject == None then t.content.subject else e.subject)
            && now.content.body == (if refused || e.body == None then t.content.body else e.body.value)
  {
  }

  /**
   Any earlier content can be had back: after any operations, rolling back to the history row of the change that came
   next restores exactly what was current after the first m of them, and keeps what it replaces.
   */
  lemma RollbackRestores(t: Template, ops: seq<Op>, m: nat, n: nat)
    requires m <= n <= |ops|
    requires After(t, ops, n).active && |After(t, ops, m).history| < |After(t, ops, n).history|
    ensures var earlier, later := After(t, ops, m), After(t, ops, n);
            var restored := Step(later, Rollback(|earlier.history|));
            && restored.content == earlier.content && restored.active
            && ContentBeforeChange(restored, |later.history|) == later.content
            && |restored.history| == |later.history| + 1
  {
    NothingIsLost(t, ops, m, n);
  }

  /** A rollback to a history row that does not exist does nothing. */
  lemma NothingToRestore(t: Template, entry: Id)
    requires !t.active || |t.history| <= entry
    ensures Step(t, Rollback(entry)) == t
  {
  }

  /** Deleting keeps the content and the history, and nothing changes either afterwards. */
  lemma DeletedForGood(t: Template, ops: seq<Op>, n: nat)
    requires n <= |ops|
    ensures After(Step(t, Delete), ops, n) == Template(false, t.content, t.history)
  {
    DeletedIsFinal(Step(t, Delete), ops, n);
  }

  /** The last version is the greatest there is, in whatever order the rows come, or zero if that is greater. */
  lemma {:induction false} LastVersionIsGreatest(history: seq<Entry>)
    ensures forall i :: 0 <= i < |history| ==> history[i].version <= LastVersion(history)
    ensures LastVersion(history) == 0 || exists i :: 0 <= i < |history| && history[i].version == LastVersion(history)
    decreases |history|
  {
    if history == [] {
    } else {
      LastVersionIsGreatest(history[..|history| - 1]);
    }
  }
}
