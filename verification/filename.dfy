/**
 * The name offered for the generated MIDI file:
 * `originalFilename.replace(/\.[^/.]+$/, '') + '.mid'`.
 *
 * The pattern matches a dot followed by one or more characters that are
 * neither '/' nor '.', anchored at the end of the string. `replace` without
 * the global flag removes the leftmost match only; because the pattern is
 * anchored and its tail excludes '.', there is at most one match.
 */
module Filenames {
  import opened Wrappers

  const MidiSuffix: string := ".mid"

  /** `t` is, as a whole, a match of `\.[^/.]+`. */
  predicate IsExtension(t: string) {
    |t| >= 2 && t[0] == '.' && forall j | 1 <= j < |t| :: t[j] != '/' && t[j] != '.'
  }

  /** A character the pattern's tail `[^/.]` refuses. */
  predicate IsSeparator(c: char) {
    c == '/' || c == '.'
  }

  /** The index of the last '/' or '.' of `s`, or -1 when there is none. */
  function LastSeparator(s: string): (k: int)
    ensures -1 <= k < |s|
    ensures 0 <= k ==> IsSeparator(s[k])
    ensures forall j | k < j < |s| :: !IsSeparator(s[j])
  {
    if s == [] then -1
    else if IsSeparator(s[|s| - 1]) then |s| - 1
    else LastSeparator(s[..|s| - 1])
  }

  /** The anchored pattern matches a string at one index at most. */
  lemma ExtensionUnique(s: string, i: nat, j: nat)
    requires i <= |s| && j <= |s| && i != j
    requires IsExtension(s[i..])
    ensures !IsExtension(s[j..])
  {
  }

  /** Where `/\.[^/.]+$/` matches `s`, if it does. */
  function ExtensionStart(s: string): (r: Option<nat>)
    ensures r.Some? ==> r.value < |s| && IsExtension(s[r.value..])
    ensures r.None? ==> forall k | 0 <= k < |s| :: !IsExtension(s[k..])
  {
    var k := LastSeparator(s);
    if 0 <= k < |s| - 1 && s[k] == '.' then
      assert IsExtension(s[k..]) by {
        forall j | 1 <= j < |s[k..]| ensures !IsSeparator(s[k..][j]) {
          assert s[k..][j] == s[k + j];
        }
      }
      Some(k)
    else
      assert forall k' | 0 <= k' < |s| :: !IsExtension(s[k'..]) by {
        forall k' | 0 <= k' < |s| ensures !IsExtension(s[k'..]) {
          if k' < k {
            assert s[k'..][k - k'] == s[k];
          } else {
            assert s[k'..][0] == s[k'];
          }
        }
      }
      None
  }

  /** The download name derived from an uploaded file's name. */
  function MidiFilename(name: string): (r: string)
    ensures forall k | 0 <= k < |name| && IsExtension(name[k..]) :: r == name[..k] + MidiSuffix
    ensures (forall k | 0 <= k < |name| :: !IsExtension(name[k..])) ==> r == name + MidiSuffix
  {
    match ExtensionStart(name)
    case Some(k) =>
      assert forall k' | 0 <= k' < |name| && IsExtension(name[k'..]) :: k' == k by {
        forall k' | 0 <= k' < |name| && k' != k ensures !IsExtension(name[k'..]) {
          ExtensionUnique(name, k, k');
        }
      }
      name[..k] + MidiSuffix
    case None => name + MidiSuffix
  }

  /**
   * Whatever the input, the result is a prefix of it followed by ".mid",
   * and what was dropped is either nothing or one extension.
   */
  lemma MidiFilenameShape(name: string)
    ensures var r := MidiFilename(name);
      |r| >= |MidiSuffix| && r[|r| - |MidiSuffix|..] == MidiSuffix &&
      var stem := r[..|r| - |MidiSuffix|];
      stem <= name && (stem == name || IsExtension(name[|stem|..]))
  {
  }

  /** A derived name is already a MIDI name: deriving again changes nothing. */
  lemma MidiFilenameIdempotent(name: string)
    ensures MidiFilename(MidiFilename(name)) == MidiFilename(name)
  {
    var r := MidiFilename(name);
    MidiFilenameShape(name);
    var k := |r| - |MidiSuffix|;
    assert r[k..] == MidiSuffix;
    assert IsExtension(r[k..]);
    assert r[..k] + MidiSuffix == r;
  }

  /** A '/' in the name is never removed: the directory part always survives. */
  lemma MidiFilenameKeepsDirectory(name: string, i: nat)
    requires i < |name| && name[i] == '/'
    ensures name[..i + 1] <= MidiFilename(name)
  {
  }

  /** Representative names: one extension, two dots, none, a trailing dot, a slash after the last dot, a leading dot. */
  lemma MidiFilenameExamples()
    ensures MidiFilename("song.wav") == "song.mid"
    ensures MidiFilename("track.tar.gz") == "track.tar.mid"
    ensures MidiFilename("README") == "README.mid"
    ensures MidiFilename("file.") == "file..mid"
    ensures MidiFilename("a.b/c") == "a.b/c.mid"
    ensures MidiFilename(".bashrc") == ".mid"
  {
    var song := "song.wav";
    assert song[4..] == ".wav" && IsExtension(song[4..]);
    assert song[..4] == "song";
    var tgz := "track.tar.gz";
    assert tgz[9..] == ".gz" && IsExtension(tgz[9..]);
    assert tgz[..9] == "track.tar";
    assert LastSeparator("README") == -1;
    assert ExtensionStart("README") == None;
    assert LastSeparator("file.") == 4;
    assert ExtensionStart("file.") == None;
    assert LastSeparator("a.b/c") == 3;
    assert ExtensionStart("a.b/c") == None;
    var dotfile := ".bashrc";
    assert dotfile[0..] == dotfile && IsExtension(dotfile[0..]);
    assert dotfile[..0] == "";
  }
}
