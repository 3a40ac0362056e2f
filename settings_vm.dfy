// SettingsViewModel: the global settings editor. It keeps the list of audio
// folders shown in the window (a case-insensitive set in display order),
// the drop-folder choice and the two "armed" LED values, and writes the
// folder list back into the settings on Save.
module SettingsVm {
  import opened Base
  import opened Text
  import opened Settings

  /** The properties whose PropertyChanged notifications the editor raises. */
  datatype Prop = MidiArmedInput1ValueProp | MidiArmedInput2ValueProp | DropFolderEnabledProp | DropWatchFolderProp

  // ---------------------------------------------------------------- folder list

  /** Some listed folder equals `path` ignoring case. */
  predicate Listed(folders: seq<string>, path: string)
  {
    exists i :: 0 <= i < |folders| && EqualsIgnoreCase(folders[i], path)
  }

  /** No two listed folders are equal ignoring case. */
  predicate NoCaseDuplicates(folders: seq<string>)
  {
    forall i, j :: 0 <= i < j < |folders| ==> !EqualsIgnoreCase(folders[i], folders[j])
  }

  /** AddFolder's rule: a blank path or one already listed (ignoring case) changes nothing; any other is appended. */
  function AddedFolder(folders: seq<string>, path: string): seq<string>
  {
    if IsBlank(Some(path)) || Listed(folders, path) then folders else folders + [path]
  }

  /** The folders that do not equal `path` ignoring case, in their order. */
  function Without(folders: seq<string>, path: string): (r: seq<string>)
    ensures |r| <= |folders|
  {
    if |folders| == 0 then []
    else (if EqualsIgnoreCase(folders[0], path) then [] else [folders[0]]) + Without(folders[1..], path)
  }

  /** RemoveFolder's rule: a blank path changes nothing; any other drops every match. */
  function RemovedFolder(folders: seq<string>, path: string): seq<string>
  {
    if IsBlank(Some(path)) then folders else Without(folders, path)
  }

  /** Removing distributes over concatenation, so the survivors keep their order. */
  lemma {:induction false} WithoutAppend(a: seq<string>, b: seq<string>, path: string)
    ensures Without(a + b, path) == Without(a, path) + Without(b, path)
    decreases |a|
  {
    if |a| == 0 {
      assert a + b == b;
    } else {
      assert (a + b)[1..] == a[1..] + b;
      WithoutAppend(a[1..], b, path);
    }
  }

  /** Without keeps exactly the folders that differ from `path` ignoring case. */
  lemma {:induction false} WithoutMembers(folders: seq<string>, path: string)
    ensures forall x :: x in Without(folders, path) <==> x in folders && !EqualsIgnoreCase(x, path)
    decreases |folders|
  {
    if |folders| > 0 {
      WithoutMembers(folders[1..], path);
      assert forall x :: x in folders <==> x == folders[0] || x in folders[1..];
    }
  }

  /** A list no element of which matches `path` comes back from Without unchanged. */
  lemma {:induction false} WithoutUnlisted(folders: seq<string>, path: string)
    requires !Listed(folders, path)
    ensures Without(folders, path) == folders
    decreases |folders|
  {
    if |folders| > 0 {
      assert !EqualsIgnoreCase(folders[0], path);
      assert !Listed(folders[1..], path) by {
        forall i | 0 <= i < |folders[1..]|
          ensures !EqualsIgnoreCase(folders[1..][i], path)
        {
          assert folders[1..][i] == folders[i + 1];
        }
      }
      WithoutUnlisted(folders[1..], path);
      assert [folders[0]] + folders[1..] == folders;
    }
  }

  /**
   * AddFolder: a non-blank path is listed afterwards, the old folders stay
   * first and in order, at most one folder is added, and a list without
   * case-insensitive duplicates keeps that property; adding twice is adding once.
   */
  lemma AddedFolderFacts(folders: seq<string>, path: string)
    ensures !IsBlank(Some(path)) ==> Listed(AddedFolder(folders, path), path)
    ensures AddedFolder(folders, path)[..|folders|] == folders
    ensures |folders| <= |AddedFolder(folders, path)| <= |folders| + 1
    ensures NoCaseDuplicates(folders) ==> NoCaseDuplicates(AddedFolder(folders, path))
    ensures AddedFolder(AddedFolder(folders, path), path) == AddedFolder(folders, path)
  {
    var r := AddedFolder(folders, path);
    assert r[..|folders|] == folders;
    if !IsBlank(Some(path)) {
      if !Listed(folders, path) {
        assert r[|folders|] == path;
      }
      assert Listed(r, path);
    }
  }

  /**
   * RemoveFolder: for a non-blank path no listed folder matches it
   * afterwards, every folder that does not match survives, nothing new
   * appears, and removing twice is removing once.
   */
  lemma RemovedFolderFacts(folders: seq<string>, path: string)
    ensures !IsBlank(Some(path)) ==> !Listed(RemovedFolder(folders, path), path)
    ensures forall x :: x in folders && !EqualsIgnoreCase(x, path) ==> x in RemovedFolder(folders, path)
    ensures forall x :: x in RemovedFolder(folders, path) ==> x in folders
    ensures NoCaseDuplicates(folders) ==> NoCaseDuplicates(RemovedFolder(folders, path))
    ensures RemovedFolder(RemovedFolder(folders, path), path) == RemovedFolder(folders, path)
  {
    var r := RemovedFolder(folders, path);
    if !IsBlank(Some(path)) {
      WithoutMembers(folders, path);
      assert !Listed(r, path) by {
        forall i | 0 <= i < |r|
          ensures !EqualsIgnoreCase(r[i], path)
        {
          assert r[i] in r;
        }
      }
      WithoutUnlisted(r, path);
      WithoutSubsequence(folders, path);
    }
  }

  /** Without keeps a case-insensitive set a case-insensitive set. */
  lemma {:induction false} WithoutSubsequence(folders: seq<string>, path: string)
    ensures NoCaseDuplicates(folders) ==> NoCaseDuplicates(Without(folders, path))
    decreases |folders|
  {
    if |folders| > 0 && NoCaseDuplicates(folders) {
      var tail := folders[1..];
      assert NoCaseDuplicates(tail) by {
        forall i, j | 0 <= i < j < |tail|
          ensures !EqualsIgnoreCase(tail[i], tail[j])
        {
          assert tail[i] == folders[i + 1] && tail[j] == folders[j + 1];
        }
      }
      WithoutSubsequence(tail, path);
      WithoutMembers(tail, path);
      var rest := Without(tail, path);
      if !EqualsIgnoreCase(folders[0], path) {
        forall j | 0 <= j < |rest|
          ensures !EqualsIgnoreCase(folders[0], rest[j])
        {
          assert rest[j] in tail;
          var k :| 0 <= k < |tail| && tail[k] == rest[j];
          assert folders[k + 1] == rest[j];
        }
        var r := [folders[0]] + rest;
        forall i, j | 0 <= i < j < |r|
          ensures !EqualsIgnoreCase(r[i], r[j])
        {
          assert r[j] == rest[j - 1];
          if i > 0 {
            assert r[i] == rest[i - 1];
          }
        }
      }
    }
  }

  /** Removing a path just added to a list where it was not listed gives the list back. */
  lemma RemoveUndoesAdd(folders: seq<string>, path: string)
    requires !IsBlank(Some(path)) && !Listed(folders, path)
    ensures RemovedFolder(AddedFolder(folders, path), path) == folders
  {
    WithoutAppend(folders, [path], path);
    WithoutUnlisted(folders, path);
    assert [path][1..] == [];
  }

  // ---------------------------------------------------------------- the editor

  /** The notification an armed-value setter raises: one, and only when the clamped value differs. */
  function ArmedNotes(before: int, after: int, prop: Prop): seq<Prop>
  {
    if after != before then [prop] else []
  }

  class SettingsViewModel {
    /** The settings loaded by SettingsService; the setters write through to them. */
    const settings: GlobalSettings
    /** The folder list the window shows, copied from the settings on load. */
    var audioFolders: seq<string>
    /** The PropertyChanged notifications raised so far. */
    var changed: seq<Prop>

    /** The constructor: the loaded settings and a copy of their folder list. */
    constructor (loaded: GlobalSettings)
      ensures settings == loaded && audioFolders == loaded.audioFolders && changed == []
    {
      settings := loaded;
      audioFolders := loaded.audioFolders;
      changed := [];
    }

    /** The MidiArmedInput1Value setter: clamps into [0, 127] and writes (and notifies) only a new value. */
    method SetMidiArmedInput1Value(value: int)
      modifies settings`midiArmedInput1Value, this`changed
      ensures settings.midiArmedInput1Value == Clamp7(value)
      ensures changed == old(changed) + ArmedNotes(old(settings.midiArmedInput1Value), Clamp7(value), MidiArmedInput1ValueProp)
    {
      var v := Clamp7(value);
      if settings.midiArmedInput1Value == v {
        return;
      }
      settings.midiArmedInput1Value := v;
      changed := changed + [MidiArmedInput1ValueProp];
    }

    /** The MidiArmedInput2Value setter: clamps into [0, 127] and writes (and notifies) only a new value. */
    method SetMidiArmedInput2Value(value: int)
      modifies settings`midiArmedInput2Value, this`changed
      ensures settings.midiArmedInput2Value == Clamp7(value)
      ensures changed == old(changed) + ArmedNotes(old(settings.midiArmedInput2Value), Clamp7(value), MidiArmedInput2ValueProp)
    {
      var v := Clamp7(value);
      if settings.midiArmedInput2Value == v {
        return;
      }
      settings.midiArmedInput2Value := v;
      changed := changed + [MidiArmedInput2ValueProp];
    }

    method SetDropFolderEnabled(value: bool)
      modifies settings`dropFolderEnabled, this`changed
      ensures settings.dropFolderEnabled == value && changed == old(changed) + [DropFolderEnabledProp]
    {
      settings.dropFolderEnabled := value;
      changed := changed + [DropFolderEnabledProp];
    }

    method SetDropWatchFolder(value: Option<string>)
      modifies settings`dropWatchFolder, this`changed
      ensures settings.dropWatchFolder == value && changed == old(changed) + [DropWatchFolderProp]
    {
      settings.dropWatchFolder := value;
      changed := changed + [DropWatchFolderProp];
    }

    /**
     * AddFolder: scans the list for a case-insensitive match and appends the
     * path only when there is none; a blank path is ignored.
     */
    method AddFolder(path: string)
      modifies this`audioFolders
      ensures audioFolders == AddedFolder(old(audioFolders), path)
    {
      if IsBlank(Some(path)) {
        return;
      }
      var i := 0;
      while i < |audioFolders|
        invariant 0 <= i <= |audioFolders| && audioFolders == old(audioFolders)
        invariant forall j :: 0 <= j < i ==> !EqualsIgnoreCase(audioFolders[j], path)
      {
        if EqualsIgnoreCase(audioFolders[i], path) {
          return;
        }
        i := i + 1;
      }
      audioFolders := audioFolders + [path];
    }

    /**
     * RemoveFolder: walks the list from the back and removes every entry
     * equal to the path ignoring case; a blank path is ignored.
     */
    method RemoveFolder(path: string)
      modifies this`audioFolders
      ensures audioFolders == RemovedFolder(old(audioFolders), path)
    {
      if IsBlank(Some(path)) {
        return;
      }
      ghost var f0 := audioFolders;
      var i := |audioFolders| - 1;
      while i >= 0
        invariant -1 <= i < |f0|
        invariant audioFolders == f0[..i + 1] + Without(f0[i + 1..], path)
      {
        RemoveStep(f0, i, path);
        if EqualsIgnoreCase(audioFolders[i], path) {
          audioFolders := audioFolders[..i] + audioFolders[i + 1..];
        }
        i := i - 1;
      }
      assert f0[0..] == f0;
    }

    /** One step of RemoveFolder's backward walk: position i is kept or dropped on its own. */
    static lemma RemoveStep(f0: seq<string>, i: int, path: string)
      requires 0 <= i < |f0|
      ensures var cur := f0[..i + 1] + Without(f0[i + 1..], path);
        && cur[i] == f0[i]
        && (EqualsIgnoreCase(f0[i], path) ==> cur[..i] + cur[i + 1..] == f0[..i] + Without(f0[i..], path))
        && (!EqualsIgnoreCase(f0[i], path) ==> cur == f0[..i] + Without(f0[i..], path))
    {
      var cur := f0[..i + 1] + Without(f0[i + 1..], path);
      assert f0[i..][1..] == f0[i + 1..];
      assert cur[..i] == f0[..i];
      assert cur[i + 1..] == Without(f0[i + 1..], path);
      assert f0[..i + 1] == f0[..i] + [f0[i]];
    }

    /** SetDropFolder: a non-blank path becomes the watched folder, enables dropping and is listed. */
    method SetDropFolder(path: string)
      modifies settings`dropWatchFolder, settings`dropFolderEnabled, this`audioFolders, this`changed
      ensures IsBlank(Some(path)) ==>
        settings.dropWatchFolder == old(settings.dropWatchFolder) && settings.dropFolderEnabled == old(settings.dropFolderEnabled)
        && changed == old(changed)
      ensures !IsBlank(Some(path)) ==>
        settings.dropWatchFolder == Some(path) && settings.dropFolderEnabled
        && changed == old(changed) + [DropWatchFolderProp, DropFolderEnabledProp]
      ensures audioFolders == AddedFolder(old(audioFolders), path)
    {
      if IsBlank(Some(path)) {
        return;
      }
      SetDropWatchFolder(Some(path));
      SetDropFolderEnabled(true);
      AddFolder(path);
    }

    /** ClearDropFolder: no watched folder and dropping disabled; the folder list stays. */
    method ClearDropFolder()
      modifies settings`dropWatchFolder, settings`dropFolderEnabled, this`changed
      ensures settings.dropWatchFolder.None? && !settings.dropFolderEnabled
      ensures changed == old(changed) + [DropWatchFolderProp, DropFolderEnabledProp]
    {
      SetDropWatchFolder(None);
      SetDropFolderEnabled(false);
    }

    /** Save: the shown folder list replaces the settings' list (writing settings.json is left out). */
    method Save()
      modifies settings`audioFolders
      ensures settings.audioFolders == audioFolders
    {
      settings.audioFolders := audioFolders;
    }
  }
}
