/** The speaker-annotated transcript built by
    `ElevenLabsClient.extract_cleaned_transcript_with_speakers`
    (backend/clients/elevenlabs/client.py): consecutive words of one
    speaker form one line `[speaker]: w1 w2 ...`, and the lines are joined
    with newlines. */
module Transcript {
  import opened Common

  /** A JSON field of a word object as `dict.get` sees it: the key is
      missing, it holds `null`, or it holds a string. */
  datatype Field = Absent | Null | Text(s: string)

  /** One element of the `words` list: its `type`, `text` and
      `speaker_id` fields. */
  datatype WordEntry = WordEntry(kind: Field, text: Field, speaker: Field)

  /** A spoken word once the defaults are applied: the speaker is `None`
      only when `speaker_id` holds `null`. */
  datatype Word = Word(speaker: Option<string>, text: string)

  /** A maximal stretch of consecutive words of one speaker. */
  datatype Run = Run(speaker: Option<string>, texts: seq<string>)

  /** Only entries whose `type` is the string "word" are kept. */
  predicate IsWord(e: WordEntry)
  {
    e.kind == Text("word")
  }

  /** How a value is written by an f-string: `None` becomes "None". */
  function FieldText(f: Field, default: string): string
  {
    match f
    case Absent => default
    case Null => "None"
    case Text(s) => s
  }

  function SpeakerName(s: Option<string>): string
  {
    match s
    case None => "None"
    case Some(x) => x
  }

  /** The text defaults to "" and the speaker to "unknown"; a present
      string passes through, and a `null` text is written "None". */
  function WordOf(e: WordEntry): (w: Word)
    ensures e.speaker == Absent ==> w.speaker == Some("unknown")
    ensures e.speaker == Null <==> w.speaker == None
    ensures e.speaker.Text? ==> w.speaker == Some(e.speaker.s)
    ensures e.text == Absent ==> w.text == ""
    ensures e.text == Null ==> w.text == "None"
    ensures e.text.Text? ==> w.text == e.text.s
  {
    Word(match e.speaker
         case Absent => Some("unknown")
         case Null => None
         case Text(s) => Some(s),
         FieldText(e.text, ""))
  }

  /** The spoken words in order, every other element skipped. */
  function Spoken(entries: seq<WordEntry>): (ws: seq<Word>)
    ensures |ws| <= |entries|
    decreases |entries|
  {
    if entries == [] then []
    else
      var init := Spoken(entries[..|entries| - 1]);
      var e := entries[|entries| - 1];
      if IsWord(e) then init + [WordOf(e)] else init
  }

  /** Groups consecutive words of equal speaker into runs. */
  function Runs(ws: seq<Word>): (rs: seq<Run>)
    ensures |rs| <= |ws|
    ensures rs == [] <==> ws == []
    ensures ws != [] ==> rs[|rs| - 1].speaker == ws[|ws| - 1].speaker
    decreases |ws|
  {
    if ws == [] then []
    else
      var rs := Runs(ws[..|ws| - 1]);
      var w := ws[|ws| - 1];
      if rs != [] && rs[|rs| - 1].speaker == w.speaker then
        rs[..|rs| - 1] + [Run(w.speaker, rs[|rs| - 1].texts + [w.text])]
      else
        rs + [Run(w.speaker, [w.text])]
  }

  /** The words a sequence of runs stands for, in order. */
  function Expand(rs: seq<Run>): seq<Word>
    decreases |rs|
  {
    if rs == [] then []
    else Expand(rs[..|rs| - 1]) + RunWords(rs[|rs| - 1])
  }

  function RunWords(r: Run): (ws: seq<Word>)
    ensures |ws| == |r.texts|
    ensures forall k :: 0 <= k < |ws| ==> ws[k] == Word(r.speaker, r.texts[k])
    decreases |r.texts|
  {
    if r.texts == [] then []
    else RunWords(Run(r.speaker, r.texts[..|r.texts| - 1])) + [Word(r.speaker, r.texts[|r.texts| - 1])]
  }

  /** Every run holds a word and no two neighbouring runs share a speaker. */
  ghost predicate WellFormed(rs: seq<Run>)
  {
    (forall i :: 0 <= i < |rs| ==> rs[i].texts != [])
    && (forall i :: 0 < i < |rs| ==> rs[i - 1].speaker != rs[i].speaker)
  }

  lemma {:induction false} ExpandAppend(rs: seq<Run>, r: Run)
    ensures Expand(rs + [r]) == Expand(rs) + RunWords(r)
  {
    assert (rs + [r])[..|rs|] == rs;
  }

  lemma {:induction false} RunWordsAppend(s: Option<string>, texts: seq<string>, t: string)
    ensures RunWords(Run(s, texts + [t])) == RunWords(Run(s, texts)) + [Word(s, t)]
  {
    assert (texts + [t])[..|texts|] == texts;
  }

  lemma {:induction false} WellFormedReplaceLast(rs: seq<Run>, r: Run)
    requires WellFormed(rs) && rs != []
    requires r.speaker == rs[|rs| - 1].speaker && r.texts != []
    ensures WellFormed(rs[..|rs| - 1] + [r])
  {
    var t := rs[..|rs| - 1] + [r];
    forall i | 0 < i < |t| ensures t[i - 1].speaker != t[i].speaker {
      assert t[i - 1].speaker == rs[i - 1].speaker && t[i].speaker == rs[i].speaker;
    }
    forall i | 0 <= i < |t| ensures t[i].texts != [] {
      if i < |rs| - 1 {
        assert t[i] == rs[i];
      }
    }
  }

  lemma {:induction false} WellFormedAppend(rs: seq<Run>, r: Run)
    requires WellFormed(rs) && r.texts != []
    requires rs != [] ==> rs[|rs| - 1].speaker != r.speaker
    ensures WellFormed(rs + [r])
  {
    var t := rs + [r];
    forall i | 0 < i < |t| ensures t[i - 1].speaker != t[i].speaker {
      if i < |rs| {
        assert t[i - 1] == rs[i - 1] && t[i] == rs[i];
      }
    }
    forall i | 0 <= i < |t| ensures t[i].texts != [] {
      if i < |rs| {
        assert t[i] == rs[i];
      }
    }
  }

  /** The runs partition the words: read back in order they give exactly
      the spoken words, with no word lost, added or moved. */
  lemma {:induction false} RunsExpand(ws: seq<Word>)
    ensures Expand(Runs(ws)) == ws
    decreases |ws|
  {
    if ws != [] {
      var init := ws[..|ws| - 1];
      var w := ws[|ws| - 1];
      RunsExpand(init);
      assert ws == init + [w];
      ExpandStep(init, w);
    }
  }

  /** One more word extends the expansion of the runs by that word. */
  lemma {:induction false} ExpandStep(ws: seq<Word>, w: Word)
    ensures Expand(Runs(ws + [w])) == Expand(Runs(ws)) + [w]
  {
    var all := ws + [w];
    assert all[..|all| - 1] == ws;
    var rs := Runs(ws);
    if rs != [] && rs[|rs| - 1].speaker == w.speaker {
      var front := rs[..|rs| - 1];
      var last := rs[|rs| - 1];
      assert rs == front + [last];
      assert Runs(all) == front + [Run(last.speaker, last.texts + [w.text])];
      ExpandGrow(front, last, w.text);
    } else {
      var single := Run(w.speaker, [w.text]);
      assert Runs(all) == rs + [single];
      ExpandAppend(rs, single);
      RunWordsAppend(w.speaker, [], w.text);
    }
  }

  lemma {:induction false} ExpandGrow(front: seq<Run>, last: Run, t: string)
    ensures Expand(front + [Run(last.speaker, last.texts + [t])]) == Expand(front + [last]) + [Word(last.speaker, t)]
  {
    ExpandAppend(front, last);
    ExpandAppend(front, Run(last.speaker, last.texts + [t]));
    RunWordsAppend(last.speaker, last.texts, t);
  }

  /** Every run holds a word and neighbouring runs have different
      speakers, so the grouping is maximal. */
  lemma {:induction false} RunsWellFormed(ws: seq<Word>)
    ensures WellFormed(Runs(ws))
    decreases |ws|
  {
    if ws != [] {
      var init := ws[..|ws| - 1];
      var w := ws[|ws| - 1];
      var rs := Runs(init);
      RunsWellFormed(init);
      if rs != [] && rs[|rs| - 1].speaker == w.speaker {
        WellFormedReplaceLast(rs, Run(w.speaker, rs[|rs| - 1].texts + [w.text]));
      } else {
        WellFormedAppend(rs, Run(w.speaker, [w.text]));
      }
    }
  }

  /** The runs are the only well-formed grouping of the words: any
      partition into non-empty runs with changing speakers is the grouping
      of the words it stands for. */
  lemma {:induction false} RunsUnique(rs: seq<Run>)
    requires WellFormed(rs)
    ensures Runs(Expand(rs)) == rs
    decreases |rs|, if rs == [] then 0 else |rs[|rs| - 1].texts|
  {
    if rs != [] {
      var front := rs[..|rs| - 1];
      var last := rs[|rs| - 1];
      var t := last.texts;
      assert rs == front + [last];
      assert t != [];
      var shorter := Run(last.speaker, t[..|t| - 1]);
      if |t| == 1 {
        assert WellFormed(front) by {
          WellFormedFront(rs);
        }
        RunsUnique(front);
        RunsUniqueNewRun(front, last);
      } else {
        SplitLast(t);
        assert last == Run(shorter.speaker, shorter.texts + [t[|t| - 1]]);
        assert WellFormed(front + [shorter]) by {
          WellFormedReplaceLast(rs, shorter);
        }
        RunsUnique(front + [shorter]);
        RunsUniqueGrowRun(front, shorter, t[|t| - 1]);
      }
    }
  }

  /** A closing run of one word, with a speaker different from the run
      before it, is read back as its own run. */
  lemma {:induction false} RunsUniqueNewRun(front: seq<Run>, last: Run)
    requires WellFormed(front + [last]) && |last.texts| == 1
    requires Runs(Expand(front)) == front
    ensures Runs(Expand(front + [last])) == front + [last]
  {
    var w := Word(last.speaker, last.texts[0]);
    Singleton(last.texts);
    assert last == Run(w.speaker, [w.text]);
    ExpandAppend(front, last);
    assert RunWords(last) == [w];
    var rs := front + [last];
    assert front != [] ==> front[|front| - 1].speaker != w.speaker by {
      if front != [] {
        assert rs[|rs| - 2] == front[|front| - 1] && rs[|rs| - 1] == last;
      }
    }
    RunsNewRun(Expand(front), front, w);
  }

  /** One more word at the end of the closing run is read back inside
      that run. */
  lemma {:induction false} RunsUniqueGrowRun(front: seq<Run>, last: Run, x: string)
    requires last.texts != []
    requires Runs(Expand(front + [last])) == front + [last]
    ensures Runs(Expand(front + [Run(last.speaker, last.texts + [x])])) == front + [Run(last.speaker, last.texts + [x])]
  {
    var w := Word(last.speaker, x);
    ExpandGrow(front, last, x);
    RunsGrowRun(Expand(front + [last]), front, last, w);
  }

  lemma {:induction false} WellFormedFront(rs: seq<Run>)
    requires WellFormed(rs) && rs != []
    ensures WellFormed(rs[..|rs| - 1])
  {
    var f := rs[..|rs| - 1];
    assert forall i :: 0 <= i < |f| ==> f[i] == rs[i];
  }

  /** A word whose speaker differs from the last run's opens a new run. */
  lemma {:induction false} RunsNewRun(init: seq<Word>, front: seq<Run>, w: Word)
    requires Runs(init) == front
    requires front != [] ==> front[|front| - 1].speaker != w.speaker
    ensures Runs(init + [w]) == front + [Run(w.speaker, [w.text])]
  {
    assert (init + [w])[..|init|] == init;
  }

  /** A word of the last run's speaker joins that run. */
  lemma {:induction false} RunsGrowRun(init: seq<Word>, front: seq<Run>, last: Run, w: Word)
    requires Runs(init) == front + [last] && last.speaker == w.speaker
    ensures Runs(init + [w]) == front + [Run(w.speaker, last.texts + [w.text])]
  {
    assert (init + [w])[..|init|] == init;
    assert (front + [last])[..|front|] == front;
  }

  /** `"sep".join(xs)`. */
  function JoinWith(sep: string, xs: seq<string>): string
    decreases |xs|
  {
    if xs == [] then ""
    else if |xs| == 1 then xs[0]
    else JoinWith(sep, xs[..|xs| - 1]) + sep + xs[|xs| - 1]
  }

  /** The words appended one by one as `" " + word` to an empty line. */
  function Spaced(xs: seq<string>): string
    decreases |xs|
  {
    if xs == [] then "" else Spaced(xs[..|xs| - 1]) + " " + xs[|xs| - 1]
  }

  /** A run's line. The builder starts with no current speaker, so a first
      run whose speaker is `null` counts as a continuation of the empty
      line and gets no `[speaker]: ` header. */
  function Render(r: Run, first: bool): string
  {
    if first && r.speaker.None? then Spaced(r.texts)
    else "[" + SpeakerName(r.speaker) + "]: " + JoinWith(" ", r.texts)
  }

  function Lines(rs: seq<Run>): (ls: seq<string>)
    ensures |ls| == |rs|
    ensures forall i :: 0 <= i < |rs| ==> ls[i] == Render(rs[i], i == 0)
    decreases |rs|
  {
    if rs == [] then [] else Lines(rs[..|rs| - 1]) + [Render(rs[|rs| - 1], |rs| == 1)]
  }

  /** The reference definition: `None` when the data is falsy or has no
      `words`, otherwise one line per run joined by newlines. */
  function CleanedTranscript(data: Option<seq<WordEntry>>): Option<string>
  {
    match data
    case None => None
    case Some(entries) => Some(JoinWith("\n", Lines(Runs(Spoken(entries)))))
  }

  /** How the lines change when one more spoken word arrives. */
  lemma {:induction false} LinesStep(ws: seq<Word>, w: Word)
    ensures var before := Lines(Runs(ws));
      var after := Lines(Runs(ws + [w]));
      if ws == [] then
        after == [if w.speaker.None? then " " + w.text else "[" + SpeakerName(w.speaker) + "]: " + w.text]
      else if ws[|ws| - 1].speaker == w.speaker then
        after == before[..|before| - 1] + [before[|before| - 1] + " " + w.text]
      else
        after == before + ["[" + SpeakerName(w.speaker) + "]: " + w.text]
  {
    if ws == [] {
      LinesFirst(w);
      assert ws + [w] == [w];
    } else if ws[|ws| - 1].speaker == w.speaker {
      LinesSame(ws, w);
    } else {
      LinesNew(ws, w);
    }
  }

  /** The first word opens the first line. */
  lemma {:induction false} LinesFirst(w: Word)
    ensures Lines(Runs([w])) == [if w.speaker.None? then " " + w.text else "[" + SpeakerName(w.speaker) + "]: " + w.text]
  {
    assert [w][..0] == [];
    var r := Run(w.speaker, [w.text]);
    assert Runs([w]) == [r];
    assert [w.text][..0] == [];
    assert Spaced([w.text]) == " " + w.text;
    LinesAppend([], r);
  }

  /** A word of the current speaker extends the last line by " word". */
  lemma {:induction false} LinesSame(ws: seq<Word>, w: Word)
    requires ws != [] && ws[|ws| - 1].speaker == w.speaker
    ensures var before := Lines(Runs(ws));
      Lines(Runs(ws + [w])) == before[..|before| - 1] + [before[|before| - 1] + " " + w.text]
  {
    var rs := Runs(ws);
    var front := rs[..|rs| - 1];
    var last := rs[|rs| - 1];
    assert rs == front + [last];
    var grown := Run(w.speaker, last.texts + [w.text]);
    RunsGrowRun(ws, front, last, w);
    RunsWellFormed(ws);
    RenderGrow(last, w.text, |front| == 0);
    LinesAppend(front, last);
    LinesAppend(front, grown);
  }

  /** A word of a new speaker opens a new line with its header. */
  lemma {:induction false} LinesNew(ws: seq<Word>, w: Word)
    requires ws != [] && ws[|ws| - 1].speaker != w.speaker
    ensures Lines(Runs(ws + [w])) == Lines(Runs(ws)) + ["[" + SpeakerName(w.speaker) + "]: " + w.text]
  {
    var rs := Runs(ws);
    var r := Run(w.speaker, [w.text]);
    RunsNewRun(ws, rs, w);
    LinesAppend(rs, r);
    assert |rs| != 0;
    assert JoinWith(" ", [w.text]) == w.text;
  }

  lemma {:induction false} LinesAppend(rs: seq<Run>, r: Run)
    ensures Lines(rs + [r]) == Lines(rs) + [Render(r, |rs| == 0)]
  {
    assert (rs + [r])[..|rs|] == rs;
  }

  /** One more word in a non-empty run adds " word" to its line. */
  lemma {:induction false} RenderGrow(r: Run, t: string, first: bool)
    requires r.texts != []
    ensures Render(Run(r.speaker, r.texts + [t]), first) == Render(r, first) + " " + t
  {
    var ts := r.texts + [t];
    assert ts[..|ts| - 1] == r.texts;
    if !(first && r.speaker.None?) {
      var h := "[" + SpeakerName(r.speaker) + "]: ";
      assert JoinWith(" ", ts) == JoinWith(" ", r.texts) + " " + t;
      assert h + (JoinWith(" ", r.texts) + " " + t) == h + JoinWith(" ", r.texts) + " " + t;
    }
  }

  lemma {:induction false} SpokenAppend(a: seq<WordEntry>, b: seq<WordEntry>)
    ensures Spoken(a + b) == Spoken(a) + Spoken(b)
    decreases |b|
  {
    if b == [] {
      assert a + b == a;
    } else {
      var b' := b[..|b| - 1];
      assert (a + b)[..|a + b| - 1] == a + b';
      SpokenAppend(a, b');
    }
  }

  /** Entries that are not words (spacing, audio events) never change the
      transcript. */
  lemma {:induction false} TranscriptIgnoresNonWords(a: seq<WordEntry>, e: WordEntry, b: seq<WordEntry>)
    requires !IsWord(e)
    ensures CleanedTranscript(Some(a + [e] + b)) == CleanedTranscript(Some(a + b))
  {
    SpokenAppend(a + [e], b);
    SpokenAppend(a, b);
    assert Spoken(a + [e]) == Spoken(a);
  }

  /** A list with no spoken word gives the empty transcript, not `None`. */
  lemma {:induction false} NoWordsGivesEmpty(entries: seq<WordEntry>)
    requires forall k :: 0 <= k < |entries| ==> !IsWord(entries[k])
    ensures CleanedTranscript(Some(entries)) == Some("")
    decreases |entries|
  {
    if entries != [] {
      NoWordsGivesEmpty(entries[..|entries| - 1]);
    }
  }

  /** Every line after the first, and the first when its speaker is not
      `null`, starts with the speaker's header; there are as many lines as
      speaker runs. */
  lemma LineHeaders(ws: seq<Word>, i: nat)
    requires i < |Runs(ws)|
    ensures var rs := Runs(ws);
      var l := Lines(rs)[i];
      |Lines(rs)| == |rs|
      && (i > 0 || rs[i].speaker.Some? ==>
            var h := "[" + SpeakerName(rs[i].speaker) + "]: ";
            |h| <= |l| && l[..|h|] == h)
  {
  }

  /** A monologue by one named speaker is a single line. */
  lemma {:induction false} SingleSpeaker(ws: seq<Word>, s: string)
    requires ws != []
    requires forall k :: 0 <= k < |ws| ==> ws[k].speaker == Some(s)
    ensures Lines(Runs(ws)) == ["[" + s + "]: " + JoinWith(" ", Texts(ws))]
    decreases |ws|
  {
    var init := ws[..|ws| - 1];
    var w := ws[|ws| - 1];
    assert ws == init + [w];
    var h := "[" + s + "]: ";
    if init == [] {
      LinesFirst(w);
      assert Texts(ws) == [w.text];
    } else {
      assert init[|init| - 1].speaker == w.speaker by {
        assert init[|init| - 1] == ws[|ws| - 2];
      }
      assert forall k :: 0 <= k < |init| ==> init[k].speaker == Some(s) by {
        assert forall k :: 0 <= k < |init| ==> init[k] == ws[k];
      }
      SingleSpeaker(init, s);
      LinesSame(init, w);
      JoinTextsStep(ws);
      AppendWord(h, JoinWith(" ", Texts(init)), w.text);
    }
  }

  /** Joining one more text adds `" " + text`. */
  lemma JoinTextsStep(ws: seq<Word>)
    requires |ws| > 1
    ensures JoinWith(" ", Texts(ws)) == JoinWith(" ", Texts(ws[..|ws| - 1])) + " " + ws[|ws| - 1].text
  {
    var ts := Texts(ws);
    assert ts[..|ts| - 1] == Texts(ws[..|ws| - 1]);
  }

  lemma AppendWord(h: string, line: string, t: string)
    ensures (h + line) + " " + t == h + (line + " " + t)
  {
  }

  function Texts(ws: seq<Word>): (ts: seq<string>)
    ensures |ts| == |ws|
    ensures forall k :: 0 <= k < |ws| ==> ts[k] == ws[k].text
    decreases |ws|
  {
    if ws == [] then [] else Texts(ws[..|ws| - 1]) + [ws[|ws| - 1].text]
  }

  /** The builder: one pass over the entries keeping the current speaker
      and the line being built, flushing the line at each change of
      speaker and at the end. */
  method ExtractCleanedTranscriptWithSpeakers(data: Option<seq<WordEntry>>) returns (r: Option<string>)
    ensures r == CleanedTranscript(data)
  {
    if data.None? {
      return None;
    }
    var words := data.value;
    var cleanedLines: seq<string> := [];
    var currentSpeaker: Option<string> := None;
    var currentLine := "";
    for i := 0 to |words|
      invariant Spoken(words[..i]) == [] ==> cleanedLines == [] && currentLine == "" && currentSpeaker == None
      invariant Spoken(words[..i]) != [] ==>
                  && currentLine != ""
                  && currentSpeaker == Spoken(words[..i])[|Spoken(words[..i])| - 1].speaker
                  && cleanedLines + [currentLine] == Lines(Runs(Spoken(words[..i])))
    {
      ghost var before := Spoken(words[..i]);
      assert words[..i + 1][..i] == words[..i];
      var e := words[i];
      if !IsWord(e) {
        continue;
      }
      var w := WordOf(e);
      assert Spoken(words[..i + 1]) == before + [w];
      LinesStep(before, w);
      if w.speaker != currentSpeaker {
        if currentLine != "" {
          cleanedLines := cleanedLines + [currentLine];
        }
        currentSpeaker := w.speaker;
        currentLine := "[" + SpeakerName(w.speaker) + "]: " + w.text;
      } else {
        currentLine := currentLine + " " + w.text;
      }
    }
    assert words[..|words|] == words;
    var lines := if currentLine != "" then cleanedLines + [currentLine] else cleanedLines;
    r := Some(JoinWith("\n", lines));
  }
}
