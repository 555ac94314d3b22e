/**
 * The capture panel (components/InputSection.tsx): routing dropped or chosen files by
 * MIME type, appending text files to the notes, client-name autofill, and the guard on
 * sending the inputs for extraction.
 */
module InputSection {
  import opened Wrappers
  import opened Text
  import opened Types
  import ClientDirectory

  /** A file as the panel sees it; `content` is what reading it as text yields. */
  datatype File = File(name: string, mimeType: string, content: string)

  /** The panel's inputs: the notes, at most one image and at most one audio recording. */
  datatype Inputs = Inputs(text: string, image: Option<File>, audio: Option<File>)

  predicate IsImage(f: File) {
    StartsWith(f.mimeType, "image/")
  }

  predicate IsAudio(f: File) {
    !IsImage(f) && StartsWith(f.mimeType, "audio/")
  }

  predicate IsPlainText(f: File) {
    !IsImage(f) && !IsAudio(f) && f.mimeType == "text/plain"
  }

  /** A file the panel acts on; every other type is ignored. */
  predicate IsRouted(f: File) {
    IsImage(f) || IsAudio(f) || IsPlainText(f)
  }

  /** A text file's content follows the notes after a blank line, or becomes the notes when they are empty. */
  function AppendText(prev: string, addition: string): (r: string)
    ensures prev == "" ==> r == addition
    ensures prev != "" ==>
      |r| == |prev| + 2 + |addition| && r[..|prev|] == prev && r[|prev|..|prev| + 2] == "\n\n" && r[|prev| + 2..] == addition
  {
    (if prev != "" then prev + "\n\n" else "") + addition
  }

  /** One file of `processFiles`. */
  function ProcessFile(inputs: Inputs, f: File): (r: Inputs)
    ensures IsImage(f) ==> r == inputs.(image := Some(f))
    ensures IsAudio(f) ==> r == inputs.(audio := Some(f))
    ensures IsPlainText(f) ==> r == inputs.(text := AppendText(inputs.text, f.content))
    ensures !IsRouted(f) ==> r == inputs
  {
    if StartsWith(f.mimeType, "image/") then inputs.(image := Some(f))
    else if StartsWith(f.mimeType, "audio/") then inputs.(audio := Some(f))
    else if f.mimeType == "text/plain" then inputs.(text := AppendText(inputs.text, f.content))
    else inputs
  }

  /** `processFiles`: the files in order. */
  function ProcessFiles(inputs: Inputs, files: seq<File>): Inputs
    decreases |files|
  {
    if |files| == 0 then inputs else ProcessFiles(ProcessFile(inputs, files[0]), files[1..])
  }

  /** The last file among `files` satisfying `p`: an independent description of "a later file replaces an earlier one". */
  function LastWhere(files: seq<File>, p: File -> bool): (r: Option<File>)
    ensures r.Some? ==> r.value in files && p(r.value)
    ensures r.None? ==> forall i | 0 <= i < |files| :: !p(files[i])
  {
    if |files| == 0 then None
    else if p(files[|files| - 1]) then Some(files[|files| - 1])
    else LastWhere(files[..|files| - 1], p)
  }

  /** The contents of the plain-text files, in order. */
  function TextContents(files: seq<File>): seq<string> {
    if |files| == 0 then []
    else (if IsPlainText(files[0]) then [files[0].content] else []) + TextContents(files[1..])
  }

  /** Processing a batch is processing its two halves one after the other. */
  lemma {:induction false} ProcessFilesConcat(inputs: Inputs, a: seq<File>, b: seq<File>)
    ensures ProcessFiles(inputs, a + b) == ProcessFiles(ProcessFiles(inputs, a), b)
    decreases |a|
  {
    if |a| == 0 {
      assert a + b == b;
    } else {
      assert (a + b)[1..] == a[1..] + b;
      ProcessFilesConcat(ProcessFile(inputs, a[0]), a[1..], b);
    }
  }

  /** The image slot ends up holding the last image file of the batch, or what it held before if there was none. */
  lemma {:induction false} ProcessFilesImage(inputs: Inputs, files: seq<File>)
    ensures ProcessFiles(inputs, files).image == match LastWhere(files, IsImage)
      case Some(f) => Some(f)
      case None => inputs.image
    decreases |files|
  {
    if |files| > 0 {
      var front, last := files[..|files| - 1], files[|files| - 1];
      assert files == front + [last];
      ProcessFilesConcat(inputs, front, [last]);
      ProcessFilesImage(inputs, front);
      assert [last][1..] == [];
    }
  }

  /** The audio slot ends up holding the last audio file of the batch, or what it held before if there was none. */
  lemma {:induction false} ProcessFilesAudio(inputs: Inputs, files: seq<File>)
    ensures ProcessFiles(inputs, files).audio == match LastWhere(files, IsAudio)
      case Some(f) => Some(f)
      case None => inputs.audio
    decreases |files|
  {
    if |files| > 0 {
      var front, last := files[..|files| - 1], files[|files| - 1];
      assert files == front + [last];
      ProcessFilesConcat(inputs, front, [last]);
      ProcessFilesAudio(inputs, front);
      assert [last][1..] == [];
    }
  }

  /** With notes already present, every text file is appended after a blank line, in order. */
  lemma {:induction false} ProcessFilesText(inputs: Inputs, files: seq<File>)
    requires inputs.text != ""
    ensures ProcessFiles(inputs, files).text == Join([inputs.text] + TextContents(files), "\n\n")
    decreases |files|
  {
    if |files| > 0 {
      var f := files[0];
      var next := ProcessFile(inputs, f);
      ProcessFilesText(next, files[1..]);
      var rest := TextContents(files[1..]);
      if IsPlainText(f) {
        assert TextContents(files) == [f.content] + rest;
        JoinPrefix(inputs.text, f.content, rest, "\n\n");
      } else {
        assert TextContents(files) == rest;
      }
    }
  }

  /** Joining with a leading part glues the first two parts with the separator. */
  lemma JoinPrefix(a: string, b: string, rest: seq<string>, sep: string)
    ensures Join([a] + ([b] + rest), sep) == Join([a + sep + b] + rest, sep)
  {
    var xs := [a] + ([b] + rest);
    assert xs[1..] == [b] + rest;
    if |rest| > 0 {
      assert ([b] + rest)[1..] == rest;
      assert ([a + sep + b] + rest)[1..] == rest;
    }
  }

  /** Files of other types change nothing: dropping them first gives the same inputs. */
  lemma {:induction false} IgnoredFilesChangeNothing(inputs: Inputs, files: seq<File>)
    ensures ProcessFiles(inputs, RoutedOnly(files)) == ProcessFiles(inputs, files)
    decreases |files|
  {
    if |files| > 0 {
      IgnoredFilesChangeNothing(ProcessFile(inputs, files[0]), files[1..]);
      if IsRouted(files[0]) {
        assert RoutedOnly(files) == [files[0]] + RoutedOnly(files[1..]);
        assert ([files[0]] + RoutedOnly(files[1..]))[1..] == RoutedOnly(files[1..]);
      } else {
        assert RoutedOnly(files) == RoutedOnly(files[1..]);
        assert ProcessFile(inputs, files[0]) == inputs;
      }
    }
  }

  function RoutedOnly(files: seq<File>): (r: seq<File>)
    ensures |r| <= |files|
    ensures forall i | 0 <= i < |r| :: IsRouted(r[i])
  {
    if |files| == 0 then []
    else (if IsRouted(files[0]) then [files[0]] else []) + RoutedOnly(files[1..])
  }

  /** `handleClientNameChange`: sets the name, and the address of the first saved client with the same lower-cased name when that address is non-empty. */
  function ClientNameChange(d: InvoiceData, clients: seq<Client>, newName: string): (r: InvoiceData)
    ensures r.clientName == newName
    ensures r.(clientName := d.clientName, clientAddress := d.clientAddress) == d
    ensures var m := ClientDirectory.FindByLowerName(clients, ToLower(newName));
      r.clientAddress == if m.Some? && clients[m.value].address != "" then Some(clients[m.value].address) else d.clientAddress
    ensures r.clientAddress != d.clientAddress ==>
      exists i | 0 <= i < |clients| :: ToLower(clients[i].name) == ToLower(newName) && Some(clients[i].address) == r.clientAddress
  {
    var named := d.(clientName := newName);
    match ClientDirectory.FindByLowerName(clients, ToLower(newName))
    case Some(i) => if clients[i].address != "" then named.(clientAddress := Some(clients[i].address)) else named
    case None => named
  }

  /** `handleSubmit`: the inputs are sent only when there is some non-blank text, an image or audio. */
  function Submit(inputs: Inputs): (r: Option<Inputs>)
    ensures r.None? <==> Trim(inputs.text) == "" && inputs.image.None? && inputs.audio.None?
    ensures r.Some? ==> r.value == inputs
  {
    if Trim(inputs.text) == "" && inputs.image.None? && inputs.audio.None? then None else Some(inputs)
  }

  /** The Generate button is disabled while processing, or when text, image and audio are all empty (the text untrimmed). */
  predicate GenerateDisabled(inputs: Inputs, state: AppState) {
    (inputs.text == "" && inputs.image.None? && inputs.audio.None?) || state == Processing
  }

  /** Whatever the button lets through outside processing is either sent, or is blank text only. */
  lemma SubmitWhenEnabled(inputs: Inputs, state: AppState)
    ensures Submit(inputs).Some? && state != Processing ==> !GenerateDisabled(inputs, state)
    ensures !GenerateDisabled(inputs, state) && Submit(inputs).None? ==>
      inputs.text != "" && Trim(inputs.text) == "" && inputs.image.None? && inputs.audio.None?
  {
    if inputs.text == "" {
      assert Trim(inputs.text) == "";
    }
  }

  /** The enabled button can still do nothing: whitespace-only notes. */
  lemma BlankTextEnablesButNotSubmit()
    ensures var inputs := Inputs(" ", None, None);
      !GenerateDisabled(inputs, Idle) && Submit(inputs).None?
  {
    assert IsSpace(' ');
    assert Trim(" ") == "";
  }

  function RemoveImage(inputs: Inputs): (r: Inputs)
    ensures r.image.None? && r.(image := inputs.image) == inputs
  {
    inputs.(image := None)
  }

  function RemoveAudio(inputs: Inputs): (r: Inputs)
    ensures r.audio.None? && r.(audio := inputs.audio) == inputs
  {
    inputs.(audio := None)
  }
}
