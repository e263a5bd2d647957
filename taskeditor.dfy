/** The list and string helpers of the project editor
    (`components/pm/EditTask.tsx`): member selection, the member diff sent
    to the server, initials, the task filter, the completion percentage and
    the local task-list updates. */
module TaskEditor {
  import opened Numeric
  import opened Sequences

  // ---------------------------------------------------------------------------
  // Member selection

  function NotEqual(id: string): string -> bool
  {
    (x: string) => x != id
  }

  function NotIn(ids: seq<string>): string -> bool
  {
    (x: string) => x !in ids
  }

  /** `toggleMemberSelection`: removes every copy of the id when it is
      selected, appends it otherwise. */
  function ToggleMember(selected: seq<string>, id: string): seq<string>
  {
    if id in selected then Filter(selected, NotEqual(id)) else selected + [id]
  }

  /** Toggling flips the membership of the id and of no other id. */
  lemma ToggleFlipsMembership(selected: seq<string>, id: string)
    ensures id in ToggleMember(selected, id) <==> id !in selected
    ensures forall x :: x != id ==> (x in ToggleMember(selected, id) <==> x in selected)
  {
  }

  /** Toggling twice restores the selected set, and the very same list when
      the id was not selected. */
  lemma ToggleTwice(selected: seq<string>, id: string)
    ensures forall x :: x in ToggleMember(ToggleMember(selected, id), id) <==> x in selected
    ensures id !in selected ==> ToggleMember(ToggleMember(selected, id), id) == selected
  {
    ToggleFlipsMembership(selected, id);
    ToggleFlipsMembership(ToggleMember(selected, id), id);
    if id !in selected {
      FilterAppend(selected, [id], NotEqual(id));
      FilterKeepsAll(selected, NotEqual(id));
      assert Filter([id], NotEqual(id)) == [] by {
        assert [id][..0] == [];
      }
    }
  }

  /** `membersToAdd`: selected users who are not yet members. */
  function MembersToAdd(current: seq<string>, selected: seq<string>): seq<string>
  {
    Filter(selected, NotIn(current))
  }

  /** `membersToRemove`: members who are no longer selected. */
  function MembersToRemove(current: seq<string>, selected: seq<string>): seq<string>
  {
    Filter(current, NotIn(selected))
  }

  /** The diff is exact: it adds the selected non-members and removes the
      unselected members, the two lists share nothing, and applying both
      leaves exactly the selected users as members. */
  lemma MemberDiffExact(current: seq<string>, selected: seq<string>)
    ensures forall x :: x in MembersToAdd(current, selected) <==> x in selected && x !in current
    ensures forall x :: x in MembersToRemove(current, selected) <==> x in current && x !in selected
    ensures forall x :: !(x in MembersToAdd(current, selected) && x in MembersToRemove(current, selected))
    ensures forall x ::
      ((x in current && x !in MembersToRemove(current, selected)) || x in MembersToAdd(current, selected))
      <==> x in selected
  {
  }

  // ---------------------------------------------------------------------------
  // Initials

  /** `s.split(sep)`: the pieces between separators, empty ones included;
      always at least one piece. */
  function Split(s: string, sep: char): (pieces: seq<string>)
    ensures |pieces| >= 1
    ensures forall i :: 0 <= i < |pieces| ==> sep !in pieces[i]
    decreases |s|
  {
    if |s| == 0 then [""]
    else
      var init := Split(s[..|s| - 1], sep);
      var c := s[|s| - 1];
      if c == sep then init + [""]
      else init[..|init| - 1] + [init[|init| - 1] + [c]]
  }

  /** `pieces.join(sep)`. */
  function Join(pieces: seq<string>, sep: char): string
    requires |pieces| >= 1
  {
    if |pieces| == 1 then pieces[0]
    else Join(pieces[..|pieces| - 1], sep) + [sep] + pieces[|pieces| - 1]
  }

  /** Joining the pieces with the separator gives back the string. */
  lemma {:induction false} JoinSplit(s: string, sep: char)
    ensures Join(Split(s, sep), sep) == s
    decreases |s|
  {
    if |s| > 0 {
      var init := Split(s[..|s| - 1], sep);
      var c := s[|s| - 1];
      JoinSplit(s[..|s| - 1], sep);
      var k := |init| - 1;
      if c == sep {
        assert (init + [""])[..|init|] == init;
      } else if k == 0 {
        assert s == s[..|s| - 1] + [c];
      } else {
        var pieces := init[..k] + [init[k] + [c]];
        assert pieces[..k] == init[..k];
        assert Join(init, sep) == Join(init[..k], sep) + [sep] + init[k];
        assert s == s[..|s| - 1] + [c];
      }
    }
  }

  /** The last piece is empty exactly when the string is, or ends with the
      separator. */
  lemma LastPieceEmpty(s: string, sep: char)
    ensures var p := Split(s, sep);
      |p[|p| - 1]| == 0 <==> |s| == 0 || s[|s| - 1] == sep
  {
  }

  /** `word[0]` of each word, joined: an empty word adds nothing. */
  function Heads(words: seq<string>): string
  {
    if |words| == 0 then []
    else
      var w := words[|words| - 1];
      Heads(words[..|words| - 1]) + (if |w| > 0 then [w[0]] else [])
  }

  /** Position `i` starts a word: not a space, at the start or after a space. */
  predicate StartsWord(s: string, i: nat)
    requires i < |s|
  {
    s[i] != ' ' && (i == 0 || s[i - 1] == ' ')
  }

  /** The characters that start words, in order. */
  function WordStarts(s: string): string
  {
    if |s| == 0 then []
    else WordStarts(s[..|s| - 1]) + (if StartsWord(s, |s| - 1) then [s[|s| - 1]] else [])
  }

  /** The heads of the space-separated pieces are exactly the characters
      that start words. */
  lemma {:induction false} HeadsOfSplit(s: string)
    ensures Heads(Split(s, ' ')) == WordStarts(s)
    decreases |s|
  {
    if |s| > 0 {
      HeadsOfSplit(s[..|s| - 1]);
      if s[|s| - 1] == ' ' {
        HeadsAfterSpace(s);
      } else {
        HeadsAfterLetter(s);
      }
    }
  }

  /** A trailing space opens an empty piece, which has no head. */
  lemma HeadsAfterSpace(s: string)
    requires |s| > 0 && s[|s| - 1] == ' '
    requires Heads(Split(s[..|s| - 1], ' ')) == WordStarts(s[..|s| - 1])
    ensures Heads(Split(s, ' ')) == WordStarts(s)
  {
    var init := Split(s[..|s| - 1], ' ');
    assert (init + [""])[..|init|] == init;
  }

  /** Any other character extends the last piece: it becomes that piece's
      head exactly when the piece was empty, that is when it starts a word. */
  lemma HeadsAfterLetter(s: string)
    requires |s| > 0 && s[|s| - 1] != ' '
    requires Heads(Split(s[..|s| - 1], ' ')) == WordStarts(s[..|s| - 1])
    ensures Heads(Split(s, ' ')) == WordStarts(s)
  {
    var t, c := s[..|s| - 1], s[|s| - 1];
    var init := Split(t, ' ');
    LastPieceEmpty(t, ' ');
    HeadsExtendLast(init, c);
    assert Split(s, ' ') == init[..|init| - 1] + [init[|init| - 1] + [c]];
    assert WordStarts(s) == WordStarts(t) + (if StartsWord(s, |s| - 1) then [c] else []);
    if |init[|init| - 1]| > 0 {
      assert t[|t| - 1] == s[|s| - 2];
      assert !StartsWord(s, |s| - 1);
    } else {
      assert |t| > 0 ==> t[|t| - 1] == s[|s| - 2];
      assert StartsWord(s, |s| - 1);
      assert Heads(init[..|init| - 1]) + [] == Heads(init[..|init| - 1]);
    }
  }

  /** Appending `c` to the last piece leaves the other heads alone; the
      last piece's head stays, or is `c` if the piece was empty. */
  lemma HeadsExtendLast(pieces: seq<string>, c: char)
    requires |pieces| >= 1
    ensures Heads(pieces) == Heads(pieces[..|pieces| - 1])
      + (if |pieces[|pieces| - 1]| > 0 then [pieces[|pieces| - 1][0]] else [])
    ensures Heads(pieces[..|pieces| - 1] + [pieces[|pieces| - 1] + [c]])
      == Heads(pieces[..|pieces| - 1]) + [if |pieces[|pieces| - 1]| > 0 then pieces[|pieces| - 1][0] else c]
  {
    var longer := pieces[..|pieces| - 1] + [pieces[|pieces| - 1] + [c]];
    assert longer[..|longer| - 1] == pieces[..|pieces| - 1];
  }

  /** `toUpperCase` on one character; letters outside a-z are unchanged. */
  function Upper(c: char): char
  {
    if 'a' <= c <= 'z' then (c as int - 32) as char else c
  }

  /** `toUpperCase` on a string: lower-case letters a-z become the matching
      capitals, every other character is kept, and no a-z letter is left. */
  function UpperAll(s: string): (r: string)
    ensures |r| == |s|
    ensures forall i :: 0 <= i < |s| ==> !('a' <= r[i] <= 'z')
    ensures forall i :: 0 <= i < |s| && 'a' <= s[i] <= 'z' ==> r[i] as int == s[i] as int - 32 && 'A' <= r[i] <= 'Z'
    ensures forall i :: 0 <= i < |s| && !('a' <= s[i] <= 'z') ==> r[i] == s[i]
  {
    seq(|s|, i requires 0 <= i < |s| => Upper(s[i]))
  }

  /** `getInitials`: "?" for a missing or empty name, otherwise the first
      two word initials, upper-cased. */
  function Initials(name: Option<string>): string
  {
    if name.None? || name.value == "" then "?"
    else
      var upper := UpperAll(Heads(Split(name.value, ' ')));
      upper[..Min(2, |upper|)]
  }

  /** The initials of a name are the upper-cased first characters of its
      first two words: at most two characters. */
  lemma InitialsAreWordStarts(name: string)
    requires name != ""
    ensures var starts := WordStarts(name);
      Initials(Some(name)) == UpperAll(starts)[..Min(2, |starts|)]
    ensures |Initials(Some(name))| <= 2
  {
    HeadsOfSplit(name);
  }

  /** Each word gives its upper-cased first letter. */
  lemma InitialsOfTwoWords()
    ensures Initials(Some("al b")) == "AB"
  {
    InitialsAreWordStarts("al b");
    WordStartsOfSample();
    assert UpperAll("ab") == "AB";
  }

  lemma WordStartsOfSample()
    ensures WordStarts("al b") == "ab"
  {
    assert WordStarts("a") == "a" by { assert "a"[..0] == ""; }
    assert WordStarts("al") == "a" by { assert "al"[..1] == "a"; }
    assert WordStarts("al ") == "a" by { assert "al "[..2] == "al"; }
    assert "al b"[..3] == "al ";
  }

  /** A blank name has no initials at all (rather than "?"). */
  lemma BlankNameHasNoInitials()
    ensures Initials(Some(" ")) == ""
  {
    HeadsOfSplit(" ");
    assert WordStarts(" ") == [] by {
      assert " "[..0] == [];
    }
  }

  // ---------------------------------------------------------------------------
  // Tasks

  /** A task as the editor lists it. */
  datatype EditorTask = EditorTask(id: string, title: string, completed: bool)

  function KeepFor(taskFilter: string): EditorTask -> bool
  {
    (t: EditorTask) =>
      if taskFilter == "active" then !t.completed
      else if taskFilter == "completed" then t.completed
      else true
  }

  /** `filteredTasks`. */
  function FilteredTasks(tasks: seq<EditorTask>, taskFilter: string): seq<EditorTask>
  {
    Filter(tasks, KeepFor(taskFilter))
  }

  /** "active" keeps exactly the open tasks and "completed" exactly the
      completed ones, each in order; together they count every task; any
      other filter, "all" included, keeps the list as it is. */
  lemma FilteredTasksExact(tasks: seq<EditorTask>, taskFilter: string)
    ensures forall t :: t in FilteredTasks(tasks, "active") <==> t in tasks && !t.completed
    ensures forall t :: t in FilteredTasks(tasks, "completed") <==> t in tasks && t.completed
    ensures IsSubsequence(FilteredTasks(tasks, taskFilter), tasks)
    ensures |FilteredTasks(tasks, "active")| + |FilteredTasks(tasks, "completed")| == |tasks|
    ensures taskFilter != "active" && taskFilter != "completed" ==> FilteredTasks(tasks, taskFilter) == tasks
  {
    FilterIsSubsequence(tasks, KeepFor(taskFilter));
    CountComplement(tasks, KeepFor("completed"), KeepFor("active"));
    if taskFilter != "active" && taskFilter != "completed" {
      FilterKeepsAll(tasks, KeepFor(taskFilter));
    }
  }

  function IsDone(t: EditorTask): bool { t.completed }

  /** `completionPercentage`: completed tasks as a percentage, 0 for none. */
  function CompletionPercentage(tasks: seq<EditorTask>): real
  {
    if |tasks| > 0 then Count(tasks, IsDone) as real / |tasks| as real * 100.0 else 0.0
  }

  /** The percentage lies in [0, 100] and is 100 exactly when every task of
      a non-empty list is completed. */
  lemma CompletionPercentageBounds(tasks: seq<EditorTask>)
    ensures 0.0 <= CompletionPercentage(tasks) <= 100.0
    ensures |tasks| > 0 ==> (CompletionPercentage(tasks) == 100.0 <==> Count(tasks, IsDone) == |tasks|)
  {
    if |tasks| > 0 {
      var n := |tasks| as real;
      var k := Count(tasks, IsDone) as real;
      QuotientAbove(k, n, 1.0);
      QuotientOfMultiple(1.0, n);
      if k / n == 1.0 {
        QuotientOfMultiple(k / n, n);
      }
    }
  }

  /** The local update after toggling a task: only the tasks with that id
      change, and only in `completed`. */
  function ToggleCompletion(tasks: seq<EditorTask>, id: string): (r: seq<EditorTask>)
    ensures |r| == |tasks|
  {
    seq(|tasks|, i requires 0 <= i < |tasks| =>
      if tasks[i].id == id then tasks[i].(completed := !tasks[i].completed) else tasks[i])
  }

  /** Toggling flips `completed` on the tasks with the id and leaves every
      other task as it was; toggling twice restores the list. */
  lemma ToggleCompletionFlips(tasks: seq<EditorTask>, id: string)
    ensures forall i :: 0 <= i < |tasks| ==>
      var t := ToggleCompletion(tasks, id)[i];
      t.id == tasks[i].id && t.title == tasks[i].title &&
      (t.completed <==> (tasks[i].id == id) != tasks[i].completed)
    ensures ToggleCompletion(ToggleCompletion(tasks, id), id) == tasks
  {
  }

  function HasOtherId(id: string): EditorTask -> bool
  {
    (t: EditorTask) => t.id != id
  }

  function HasId(id: string): EditorTask -> bool
  {
    (t: EditorTask) => t.id == id
  }

  /** The local update after archiving or deleting a task. */
  function RemoveTask(tasks: seq<EditorTask>, id: string): seq<EditorTask>
  {
    Filter(tasks, HasOtherId(id))
  }

  /** Removing drops exactly the tasks with the id, keeping the others in
      order. */
  lemma RemoveTaskExact(tasks: seq<EditorTask>, id: string)
    ensures forall t :: t in RemoveTask(tasks, id) <==> t in tasks && t.id != id
    ensures |RemoveTask(tasks, id)| == |tasks| - Count(tasks, HasId(id))
    ensures IsSubsequence(RemoveTask(tasks, id), tasks)
  {
    CountComplement(tasks, HasId(id), HasOtherId(id));
    FilterIsSubsequence(tasks, HasOtherId(id));
  }
}
