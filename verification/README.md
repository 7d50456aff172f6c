# Melody scanner web — verified model of the page script

The application is a single browser script (`script.js`) that turns an uploaded
audio file into a MIDI file. It transcribes the audio with a pretrained Magenta
model on TensorFlow.js, shows a waveform with WaveSurfer and offers the MIDI
file as a download. This project models the logic the script itself contains:

- **Download name** (`filename.dfy`, module `Filenames`). This is the expression
  `originalFilename.replace(/\.[^/.]+$/, '') + '.mid'`. `IsExtension` states
  what the regular expression matches. `MidiFilename` is specified against it:
  at most one trailing extension is removed, then `.mid` is appended.
- **Button states** (`status.dfy`, module `StatusView`). This is the `switch`
  of `updateUIState`, as a pure table. It maps four state names to a triple:
  disabled flag, Portuguese label, spinner display. Any other name maps to
  nothing.
- **Page session** (`session.dfy`, module `Session`). Class `App` has one
  field for each DOM property the script writes: the button, the spinner, the
  error banner, the result section, the audio preview and the download link.
  Three more fields stand for state the script does not write in the DOM:
  - `files` is the file input's selection. The browser sets it; the script
    only reads it.
  - `waveformFile` is the source last handed to WaveSurfer's `load`.
  - `modelLoaded` and `viewerCreated` say whether the globals
    `transcriptionModel` and `wavesurfer` have been assigned.

  Each function or event listener that changes these fields is a method.
  Calls into TensorFlow.js, Magenta and WaveSurfer become outcome parameters:
  - the backend outcome;
  - whether the model loaded;
  - the viewer outcome;
  - the transcription outcome;
  - the MIDI bytes, or `None` when encoding threw.

  The contracts say which fields each path changes and to what.
- `wrappers.dfy` holds `Option` and `Result`.

Behaviour of the script that the model keeps:
- `processAudioFile` enters `processing` before it checks the size. A file
  over the limit then returns the page to `ready`.
- `updateUIState` ignores a state name it does not recognise.
- The button labels are the Portuguese strings of the script.
- A failed initialization never calls `updateUIState` again, so the label is
  whatever was written last. Once the backend is configured, that is
  `Carregando modelo...`.
- Choosing a new file hides the result section. The download link's own
  `href`, `download` and `display` stay as they were.

After a failed start the page stays inert. `Session.FailedStartStaysInert`
states this in one place: a failed start, a file selection and a click
together leave the button disabled. The label and the error text stay as
initialization left them. It follows from three contracts:
- Every failed path of `Session.App.Load` leaves the button disabled.
- `ClickProcessButton` changes nothing while the button is disabled. Browsers
  do not deliver clicks to a disabled button.
- `ChangeFiles` cannot write the button fields; its `modifies` clause leaves
  them out.

## Model

| member | source | states |
|---|---|---|
| `Filenames.LastSeparator` | script.js:133 | returns the index of the last `/` or `.`, or -1; no later character is either one; this is the scan that anchors the pattern at the end |
| `Filenames.ExtensionStart` | script.js:133 | if it returns an index, the pattern `\.[^/.]+$` matches the suffix from there; if it returns nothing, no suffix of the name matches |
| `Filenames.ExtensionUnique` | script.js:133 | the anchored pattern matches at most one suffix; so the non-global `replace` has at most one candidate to remove |
| `Filenames.MidiFilename` | script.js:133 | when a suffix matches the pattern, the result is the name up to that suffix plus `.mid`; when none matches, the result is the whole name plus `.mid` |
| `Filenames.MidiFilenameShape` | script.js:133 | the result ends in `.mid`; what precedes it is a prefix of the name; the dropped part is empty or exactly one extension |
| `Filenames.MidiFilenameIdempotent` | script.js:133 | deriving the name from an already derived name gives it back unchanged |
| `Filenames.MidiFilenameKeepsDirectory` | script.js:133 | every character up to and including any `/` survives, because an extension never contains `/` |
| `Filenames.MidiFilenameExamples` | script.js:133 | `song.wav`→`song.mid`, `track.tar.gz`→`track.tar.mid`, `README`→`README.mid`, `file.`→`file..mid`, `a.b/c`→`a.b/c.mid`, `.bashrc`→`.mid` |
| `StatusView.StateButton` | script.js:140-166 | gives a triple exactly for the four recognised names; the button is disabled exactly in `initializing` and `processing`; the spinner is shown exactly when the button is disabled |
| `StatusView.Project` | script.js:140-166 | an unrecognised name leaves the button as it was; a recognised one writes that state's table row |
| `StatusView.StateButtonTable` | script.js:141-164 | the four rows: (disabled, `Inicializando...`, shown), (enabled, `Converter para MIDI`, hidden), (disabled, `Processando...`, shown), (enabled, `Converter Novamente`, hidden) |
| `StatusView.StateButtonInjective` | script.js:140-166 | two recognised states that write the same label are the same state: the label alone tells the state |
| `StatusView.ProjectIdempotent` | script.js:140-166 | writing the same state twice gives the same button as writing it once |
| `Session.GenerateMidiFile` | script.js:121-129 | succeeds exactly when encoding returned bytes; the Blob holds those bytes with type `audio/midi`; any encoder throw becomes `Falha ao gerar arquivo MIDI` |
| `Session.App.Load` | script.js:26-54 | starts from the page as parsed, then runs initialization; its per-outcome results are those of `InitializeApp` |
| `Session.App.InitializeApp` | script.js:26-82 | success: `ready`, model and viewer assigned, banner untouched. Any failure: button disabled, spinner shown, banner `Erro na inicialização: ` + message. A model-load failure's message is `Falha ao carregar o modelo de transcrição` and leaves the label `Carregando modelo...` |
| `Session.App.ProcessAudioFile` | script.js:85-118 | over 5·1024·1024 bytes: `ready` with `Erro no processamento: Arquivo muito grande (limite: 5MB)`, viewer and results untouched. Otherwise the viewer gets the file. Transcription or encoding failure: `ready`, prefixed banner, results as before. Success: `completed`, result and download shown, link named by `MidiFilename` |
| `Session.App.PrepareDownload` | script.js:132-137 | the link points at the Blob, is named by the derived name and is shown |
| `Session.App.UpdateUIState` | script.js:140-166 | the button becomes the table's `Project` of its old value; no other field changes |
| `Session.App.UpdateStatus` | script.js:168-170 | only the button label changes, to the message |
| `Session.App.ShowError` | script.js:172-178 | the banner shows the message and is visible; nothing else changes |
| `Session.App.ChangeFiles` | script.js:181-186 | a non-empty selection hides the result section and the banner; an empty one changes neither; the button cannot change |
| `Session.FailedStartStaysInert` | script.js:26-54 | after any failed start, then a file selection and a click: button still disabled, spinner shown, label `Inicializando...` after a backend failure and `Carregando modelo...` otherwise, error text `Erro na inicialização: ` + the failure's message |
| `Session.App.ClickProcessButton` | script.js:188-194 | disabled button: nothing changes. No file: banner `Por favor, selecione um arquivo de áudio primeiro`, button, results and viewer untouched. Otherwise: exactly `ProcessAudioFile`'s outcome for the first file |

## Left out

- Session.App.ShowError: does not model the 5000 ms `setTimeout` that re-hides the banner. Each call schedules its own hide and never cancels an earlier one.
- Object URLs are modelled as the Blob or file they point to. `URL.createObjectURL` handles are never revoked by the script, so nothing is said about releasing them.
- The note sequence returned by transcription is not modelled; only its outcome is. Likewise MIDI encoding (`mm.sequenceProtoToMidi`) is seen only through the bytes it returns or its throw.
- WaveSurfer's configuration and rendering are not modelled. `wavesurfer.load` is taken not to throw synchronously; its asynchronous failures never reach the script's error path.
- Session.App.InitializeApp: takes `new mm.OnsetsAndFrames(...)` not to throw. It sits outside the `try` of `loadTranscriptionModel`, so its raw message would be shown instead of the fixed one.
- Session.App.ProcessAudioFile: requires both globals to be assigned. Without them the script would fail with a TypeError inside its `try`. No click can reach that path, because the button is enabled only after both are assigned (`Valid`).
- `console.error` and `console.warn` logging are not modelled, and neither are the unused `MODEL_CONFIG` fields.
- Asynchronous interleaving is not modelled: each handler runs to completion. A second click during a run cannot happen because the button is disabled while busy. The file input, however, stays enabled during a run. A `change` event while transcription or encoding is awaited would hide the results and the banner and store the new selection. A successful finish would then show the results for the old file beside the new selection. The model, whose handlers run to completion, cannot reach that state.
- `index.html` is not part of this model. `Session.App.Load` assumes the parsed page has the banner hidden, the result section and download link hidden and nothing selected.
