/** What the bridge's acks say about Bear, for every row and whatever Bear answers, stated on Bear's notes alone. */
module BearEffects {
  import opened Model
  import opened BearBridge

  /** Text is measured as UTF-8 does, code point by code point. */
  lemma {:induction false} Utf8LenAdds(s: string, t: string)
    ensures Utf8Len(s + t) == Utf8Len(s) + Utf8Len(t)
    decreases |s|
  {
    if s == "" {
      assert s + t == t;
    } else {
      assert (s + t)[1..] == s[1..] + t;
      Utf8LenAdds(s[1..], t);
    }
  }

  lemma Utf8LenOf(c: char)
    ensures Utf8Len([c]) == if c as int <= 0x7F then 1 else if c as int <= 0x7FF then 2
                            else if c as int <= 0xFFFF then 3 else 4
  {
    assert [c][1..] == "";
  }

  // ---- Writes to one note ----

  /** The writes whose payload names a note of Bear. */
  predicate NoteWrite(w: Write) { w.Update? || w.AddTag? || w.Trash? || w.Archive? || w.AddFile? }

  /** Bear's note b is the one the row means: the one its payload names, or else the one under its note_id. */
  predicate Means(bear: Bear, row: Leased, b: BearId)
    requires NoteWrite(row.item.write)
  {
    b in bear && if row.item.write.bear in bear then b == row.item.write.bear else row.item.note == Some(b)
  }

  /** The note has what the write asks for. */
  predicate HasWrite(v: BearNote, w: Write) {
    match w
    case Update(body, _) => v.body == body
    case AddTag(tag, _) => tag in v.tags
    case Trash(_) => v.trashed
    case Archive(_) => v.archived
    case AddFile(_, filename, _) => filename in v.files
    case _ => true
  }

  /** The write adds that, under the stamp of the call, and changes nothing else in the note. */
  predicate Adds(v: BearNote, v2: BearNote, w: Write, stamp: Stamp) {
    match w
    case Update(body, _) => v2 == v.(body := body, modifiedAt := stamp)
    case AddTag(tag, _) => v2 == v.(tags := v.tags + {tag}, modifiedAt := stamp)
    case Trash(_) => v2 == v.(trashed := true, modifiedAt := stamp)
    case Archive(_) => v2 == v.(archived := true, modifiedAt := stamp)
    case AddFile(_, filename, _) => v2 == v.(files := v.files + {filename}, modifiedAt := stamp)
    case _ => false
  }

  predicate Named(w: Write) {
    match w
    case Update(body, _) => body != ""
    case AddFile(blob, filename, _) => blob != "" && filename != ""
    case _ => true
  }

  /** bear-xcall takes no more than 50 KB of text. */
  predicate Fits(w: Write) { (w.Update? || w.Create?) ==> Utf8Len(w.body) <= 51200 }

  /**
   * A note write is acked as applied exactly when Bear has the note and either the note had what was asked for or the
   * call was made and succeeded. Then the note has it; otherwise Bear is as it was. No other note changes.
   */
  lemma AppliedMeansShown(bear: Bear, row: Leased, out: Outcome)
    requires NoteWrite(row.item.write) && !(row.item.note.Some? && row.noteStatus == Some(Conflict))
    ensures var (bear2, a), w := Apply(bear, row, out), row.item.write;
            && bear2.Keys == bear.Keys
            && (forall b | Means(bear, row, b) ::
                  a.applied <==> Named(w) && (HasWrite(bear[b], w) || (Fits(w) && out.ok)))
            && (a.applied ==> exists b :: Means(bear, row, b))
            && (a.applied ==> forall b | Means(bear, row, b) ::
                  && HasWrite(bear2[b], w)
                  && if HasWrite(bear[b], w) then bear2[b] == bear[b] else Adds(bear[b], bear2[b], w, out.stamp))
            && (!a.applied ==> bear2 == bear)
            && (forall b | b in bear && !Means(bear, row, b) :: bear2[b] == bear[b])
  {
    var w, n := row.item.write, row.item.note;
    if w.bear in bear {
      assert Means(bear, row, w.bear);
    } else if n.Some? && n.value in bear {
      assert Means(bear, row, n.value);
    }
  }

  /** An update's ack carries the stamp the note then has, unless it could not be read; the other acks carry none. */
  lemma AckCarriesStamp(bear: Bear, row: Leased, out: Outcome, b: BearId)
    requires NoteWrite(row.item.write) && !(row.item.note.Some? && row.noteStatus == Some(Conflict))
    requires Means(bear, row, b)
    ensures var (bear2, a), w := Apply(bear, row, out), row.item.write;
            && (a.applied && w.Update? && (out.readBack || HasWrite(bear[b], w)) ==>
                  a.modifiedAt == bear2[b].modifiedAt)
            && (a.modifiedAt.Some? ==> a.applied && w.Update? && a.modifiedAt == bear2[b].modifiedAt)
  {
  }

  // ---- Writes to all notes ----

  /** Renaming and deleting a tag: applied exactly when the call was made and succeeded, and then on every note. */
  lemma TagWritesReachEveryNote(bear: Bear, row: Leased, out: Outcome)
    requires (row.item.write.RenameTag? || row.item.write.DeleteTag?) && row.item.note.None?
    ensures var (bear2, a), w := Apply(bear, row, out), row.item.write;
            && bear2.Keys == bear.Keys
            && (a.applied <==> w.name != "" && (w.RenameTag? ==> w.newName != "") && out.ok)
            && (!a.applied ==> bear2 == bear)
            && (a.applied ==> forall b | b in bear ::
                  && (forall t :: t in bear2[b].tags <==>
                        || (t in bear[b].tags && t != w.name)
                        || (w.RenameTag? && t == w.newName && w.name in bear[b].tags))
                  && bear2[b] == bear[b].(tags := bear2[b].tags, modifiedAt := bear2[b].modifiedAt)
                  && bear2[b].modifiedAt == if w.name in bear[b].tags then out.stamp else bear[b].modifiedAt)
            && a.bearId.None? && a.modifiedAt.None?
  {
  }

  // ---- Notes the bridge makes ----

  /** The only change is a note under this id, made by a call with this title, text and tags. */
  predicate Makes(bear: Bear, bear2: Bear, id: BearId, title: string, text: string, tags: set<string>) {
    && bear2.Keys == bear.Keys + {id} && (forall b | b in bear && b != id :: bear2[b] == bear[b])
    && bear2[id].madeBy == Some(CreateCall(title, text, tags))
  }

  /**
   * An applied create asked Bear for exactly the title, body and tags of its row, and the ack names the note it made.
   * A failed one changed nothing, or made that very note without learning its id.
   */
  lemma CreateAsksForItsRow(bear: Bear, row: Leased, out: Outcome)
    requires row.item.write.Create? && !(row.item.note.Some? && row.noteStatus == Some(Conflict))
    ensures var (bear2, a), w := Apply(bear, row, out), row.item.write;
            && (a.applied <==> Fits(w) && out.ok && out.identified)
            && (if Fits(w) && out.ok then Makes(bear, bear2, out.id, w.title, w.body, set t | t in w.tags)
                else bear2 == bear)
            && (a.applied ==> a.bearId == Some(out.id) && !a.conflictResolved)
            && (a.applied && out.readBack ==> a.modifiedAt == bear2[out.id].modifiedAt)
            && (!(a.applied && out.readBack) ==> a.modifiedAt.None?)
  {
  }

  /** The text of a row that carries one. */
  function TextOf(w: Write): string { if w.Create? || w.Update? then w.body else "" }

  /** A note made for a conflict: the row's text under a title that says so. */
  predicate IsCopyOf(v: BearNote, w: Write) {
    && v.madeBy.Some? && v.madeBy.value.text == TextOf(w)
    && "[Conflict] " <= v.madeBy.value.title && |v.madeBy.value.title| > |"[Conflict] "|
  }

  /**
   * A row of a conflicted note is acked exactly when the copy was made: a new note with the row's text, its own title
   * or the original's, and the original's tags where they can be read. The original and every other note stay.
   */
  lemma CopyHoldsText(bear: Bear, row: Leased, out: Outcome)
    requires row.item.note.Some? && row.noteStatus == Some(Conflict)
    ensures var (bear2, a), w := Apply(bear, row, out), row.item.write;
            && (a.applied <==> out.ok) && (a.conflictResolved <==> a.applied) && a.bearId.None? && a.modifiedAt.None?
            && (!a.applied ==> bear2 == bear)
            && (a.applied ==>
                  && bear2.Keys == bear.Keys + {out.id} && (forall b | b in bear && b != out.id :: bear2[b] == bear[b])
                  && IsCopyOf(bear2[out.id], w)
                  && (w.Create? && w.title != "" ==> bear2[out.id].madeBy.value.title == "[Conflict] " + w.title)
                  && (NoteWrite(w) && w.bear in bear && out.readBack ==>
                        && bear2[out.id].madeBy.value.tags == bear[w.bear].tags
                        && var t := NoteTitle.TitleOf(bear[w.bear].body);
                           t != "" ==> bear2[out.id].madeBy.value.title == "[Conflict] " + t))
  {
    var call := CopyCall(bear, row.item.write, out.readBack);
    assert call.title[..|"[Conflict] "|] == "[Conflict] ";
  }

  // ---- Whole passes with mixed outcomes ----

  /** The row could take back what w wrote to note b. */
  predicate Undoes(row: Leased, b: BearId, w: Write) {
    var u := row.item.write;
    match w
    case Update(_, _) => u.Update? && (u.bear == b || row.item.note == Some(b))
    case AddTag(tag, _) => (u.RenameTag? || u.DeleteTag?) && u.name == tag
    case _ => false
  }

  lemma ShownStep(bear: Bear, row: Leased, out: Outcome, b: BearId, w: Write)
    requires b in bear && HasWrite(bear[b], w) && out.id != b
    requires Apply(bear, row, out).1.applied ==> !Undoes(row, b, w)
    ensures b in Apply(bear, row, out).0 && HasWrite(Apply(bear, row, out).0[b], w)
  {
    if NoteWrite(row.item.write) && !(row.item.note.Some? && row.noteStatus == Some(Conflict)) {
      AppliedMeansShown(bear, row, out);
    }
  }

  lemma {:induction false} ShownStays(bear: Bear, rows: seq<Leased>, outs: seq<Outcome>, b: BearId, w: Write)
    requires |outs| == |rows| && b in bear && HasWrite(bear[b], w)
    requires forall a | 0 <= a < |rows| :: outs[a].id != b
    requires forall a | 0 <= a < |rows| && Acks(bear, rows, outs)[a].applied :: !Undoes(rows[a], b, w)
    ensures b in Pass(bear, rows, outs) && HasWrite(Pass(bear, rows, outs)[b], w)
    decreases |rows|
  {
    if rows != [] {
      var bear2, acks := Apply(bear, rows[0], outs[0]).0, Acks(bear, rows, outs);
      assert acks == [Apply(bear, rows[0], outs[0]).1] + Acks(bear2, rows[1..], outs[1..]);
      ShownStep(bear, rows[0], outs[0], b, w);
      forall a | 0 <= a < |rows[1..]| && Acks(bear2, rows[1..], outs[1..])[a].applied
        ensures !Undoes(rows[1..][a], b, w)
      {
        assert acks[a + 1] == Acks(bear2, rows[1..], outs[1..])[a];
      }
      ShownStays(bear2, rows[1..], outs[1..], b, w);
    }
  }

  /** After a pass Bear has what each applied row asked for, unless a later applied row took it back. */
  lemma {:induction false} AppliedRowsShow(bear: Bear, rows: seq<Leased>, outs: seq<Outcome>, b: BearId, k: nat)
    requires |outs| == |rows| && k < |rows| && b in bear && forall a | 0 <= a < |rows| :: outs[a].id != b
    requires NoteWrite(rows[k].item.write) && rows[k].item.write.bear == b && rows[k].noteStatus != Some(Conflict)
    requires Acks(bear, rows, outs)[k].applied
    requires forall a | k < a < |rows| && Acks(bear, rows, outs)[a].applied :: !Undoes(rows[a], b, rows[k].item.write)
    ensures b in Pass(bear, rows, outs) && HasWrite(Pass(bear, rows, outs)[b], rows[k].item.write)
    decreases |rows|
  {
    var bear2, acks := Apply(bear, rows[0], outs[0]).0, Acks(bear, rows, outs);
    var rest := Acks(bear2, rows[1..], outs[1..]);
    assert acks == [Apply(bear, rows[0], outs[0]).1] + rest;
    forall a | 0 <= a < |rest| && rest[a].applied && k < a + 1
      ensures !Undoes(rows[1..][a], b, rows[k].item.write)
    {
      assert acks[a + 1] == rest[a] && rows[1..][a] == rows[a + 1];
    }
    if k == 0 {
      AppliedMeansShown(bear, rows[0], outs[0]);
      assert Means(bear, rows[0], b);
      ShownStays(bear2, rows[1..], outs[1..], b, rows[0].item.write);
    } else {
      BearKeepsNotes(bear, rows[0], outs[0], b);
      assert acks[k] == rest[k - 1] && rows[1..][k - 1] == rows[k];
      AppliedRowsShow(bear2, rows[1..], outs[1..], b, k - 1);
    }
  }

  lemma BearKeepsNotes(bear: Bear, row: Leased, out: Outcome, b: BearId)
    requires b in bear
    ensures b in Apply(bear, row, out).0
  {
  }

  function AppliedOnly<T>(xs: seq<T>, acks: seq<AckItem>): seq<T>
    requires |xs| == |acks|
    decreases |xs|
  {
    if xs == [] then [] else (if acks[0].applied then [xs[0]] else []) + AppliedOnly(xs[1..], acks[1..])
  }

  lemma {:induction false} SameLength<S, T>(xs: seq<S>, ys: seq<T>, acks: seq<AckItem>)
    requires |xs| == |ys| == |acks|
    ensures |AppliedOnly(xs, acks)| == |AppliedOnly(ys, acks)|
    decreases |xs|
  {
    if xs != [] { SameLength(xs[1..], ys[1..], acks[1..]); }
  }

  /** Row a is a create whose call was made and whose note could not be found. */
  predicate Unidentified(row: Leased, out: Outcome) { row.item.write.Create? && out.ok && !out.identified }

  /** Rows acked as failed have done nothing to Bear: a pass is the pass of its applied rows. */
  lemma {:induction false} FailedRowsDoNothing(bear: Bear, rows: seq<Leased>, outs: seq<Outcome>)
    requires |outs| == |rows| && forall a | 0 <= a < |rows| :: !Unidentified(rows[a], outs[a])
    ensures var acks := Acks(bear, rows, outs);
            && |AppliedOnly(outs, acks)| == |AppliedOnly(rows, acks)|
            && Pass(bear, rows, outs) == Pass(bear, AppliedOnly(rows, acks), AppliedOnly(outs, acks))
    decreases |rows|
  {
    var acks := Acks(bear, rows, outs);
    SameLength(outs, rows, acks);
    if rows != [] {
      var (bear2, a) := Apply(bear, rows[0], outs[0]);
      assert !Unidentified(rows[0], outs[0]);
      if !a.applied { FailedRowDoesNothing(bear, rows[0], outs[0]); }
      assert acks[1..] == Acks(bear2, rows[1..], outs[1..]);
      FailedRowsDoNothing(bear2, rows[1..], outs[1..]);
      var rows2, outs2 := AppliedOnly(rows, acks), AppliedOnly(outs, acks);
      if a.applied {
        assert rows2[0] == rows[0] && rows2[1..] == AppliedOnly(rows[1..], acks[1..]);
        assert outs2[0] == outs[0] && outs2[1..] == AppliedOnly(outs[1..], acks[1..]);
      } else {
        assert rows2 == AppliedOnly(rows[1..], acks[1..]) && outs2 == AppliedOnly(outs[1..], acks[1..]);
      }
    }
  }

  lemma FailedRowDoesNothing(bear: Bear, row: Leased, out: Outcome)
    requires !Unidentified(row, out) && !Apply(bear, row, out).1.applied
    ensures Apply(bear, row, out).0 == bear
  {
  }
}
