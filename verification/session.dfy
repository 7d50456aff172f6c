/**
 * The page session: the DOM properties the script writes, the two globals it
 * assigns (`transcriptionModel`, `wavesurfer`), and one method per function
 * or event listener that changes them.
 *
 * Every call into TensorFlow.js, Magenta or WaveSurfer is replaced by a
 * parameter carrying its outcome, so each contract can say which fields a
 * given path changes.
 */
module Session {
  import opened Wrappers
  import opened Filenames
  import opened StatusView

  /** The size guard of `processAudioFile`: 5 MiB, inclusive. */
  const MaxFileSize: nat := 5 * 1024 * 1024

  const InitErrorPrefix: string := "Erro na inicialização: "
  const ProcessErrorPrefix: string := "Erro no processamento: "
  const FileTooLarge: string := "Arquivo muito grande (limite: 5MB)"
  const ModelLoadFailure: string := "Falha ao carregar o modelo de transcrição"
  const MidiFailure: string := "Falha ao gerar arquivo MIDI"
  const NoFileSelected: string := "Por favor, selecione um arquivo de áudio primeiro"

  /** Transient labels written by `updateStatus`. */
  const CpuStatus: string := "Usando CPU (performance reduzida)"
  const LoadingStatus: string := "Carregando modelo..."
  const AnalysingStatus: string := "Analisando áudio..."
  const EncodingStatus: string := "Gerando arquivo MIDI..."

  const MidiMimeType: string := "audio/midi"

  /** Values of `style.display` for the result section and the download link. */
  const Shown: string := "block"
  const Hidden: string := "none"

  /** A selected file: its name and its declared size in bytes; the audio itself is opaque. */
  datatype AudioFile = AudioFile(name: string, size: nat)

  /** A Blob: its bytes and its MIME type. */
  datatype Blob = Blob(bytes: seq<bv8>, mimeType: string)

  /** How an external call ended: it returned, or it threw an Error with this message. */
  datatype Outcome = Pass | Fail(message: string)

  /** The error banner: its text and whether it carries the `d-none` class. */
  datatype Banner = Banner(text: string, hidden: bool)

  /** What the result section shows: its display, the preview source and the download link. */
  datatype ResultArea = ResultArea(
    display: string,
    preview: Option<AudioFile>,
    link: Option<Blob>,
    downloadName: string,
    downloadDisplay: string)

  /**
   * `generateMidiFile`: `encoded` is what `mm.sequenceProtoToMidi` returned,
   * or None when it threw. Any throw becomes one fixed message.
   */
  function GenerateMidiFile(encoded: Option<seq<bv8>>): (r: Result<Blob, string>)
    ensures r.Success? <==> encoded.Some?
    ensures r.Success? ==> r.value.bytes == encoded.value && r.value.mimeType == MidiMimeType
    ensures r.Failure? ==> r.error == MidiFailure
  {
    match encoded
    case Some(bytes) => Success(Blob(bytes, MidiMimeType))
    case None => Failure(MidiFailure)
  }

  class App {
    /** `audioInput.files` */
    var files: seq<AudioFile>
    /** `processBtn.disabled`, `btnText.textContent`, `spinner.style.display` */
    var processDisabled: bool
    var btnText: string
    var spinnerDisplay: string
    /** `errorAlert.textContent` and whether `errorAlert` has the class `d-none` */
    var errorText: string
    var errorHidden: bool
    /** `resultSection.style.display` and the file `audioPreview.src` points to */
    var resultDisplay: string
    var previewFile: Option<AudioFile>
    /** The Blob `downloadBtn.href` points to, `downloadBtn.download`, `downloadBtn.style.display` */
    var downloadBlob: Option<Blob>
    var downloadName: string
    var downloadDisplay: string
    /** The file last handed to `wavesurfer.load` */
    var waveformFile: Option<AudioFile>
    /** Whether the globals `transcriptionModel` and `wavesurfer` have been assigned */
    var modelLoaded: bool
    var viewerCreated: bool

    /** The button is only ever enabled once both globals exist. */
    ghost predicate Valid()
      reads this
    {
      !processDisabled ==> modelLoaded && viewerCreated
    }

    function ButtonView(): Button
      reads this
    {
      Button(processDisabled, btnText, spinnerDisplay)
    }

    function BannerView(): Banner
      reads this
    {
      Banner(errorText, errorHidden)
    }

    function ResultView(): ResultArea
      reads this
    {
      ResultArea(resultDisplay, previewFile, downloadBlob, downloadName, downloadDisplay)
    }

    /** How a failed initialization leaves the page: disabled button, banner with the message. */
    predicate InitFailed(message: string, text: string)
      reads this
    {
      ButtonView() == Button(true, text, SpinnerShown) &&
      BannerView() == Banner(InitErrorPrefix + message, false)
    }

    /** How a failed processing run leaves the page: ready again, banner shown, results as before. */
    twostate predicate RunFailed(message: string)
      reads this
    {
      Some(ButtonView()) == StateButton(Ready) &&
      BannerView() == Banner(ProcessErrorPrefix + message, false) &&
      ResultView() == old(ResultView())
    }

    /** How a successful run leaves the page: completed, result and download link shown. */
    twostate predicate RunCompleted(file: AudioFile, bytes: seq<bv8>)
      reads this
    {
      Some(ButtonView()) == StateButton(Completed) &&
      BannerView() == old(BannerView()) &&
      ResultView() == ResultArea(Shown, Some(file), Some(Blob(bytes, MidiMimeType)), MidiFilename(file.name), Shown)
    }

    /** The page after `processAudioFile(file)`, per path. */
    twostate predicate Processed(file: AudioFile, transcription: Outcome, encoded: Option<seq<bv8>>)
      reads this
    {
      (file.size > MaxFileSize ==> RunFailed(FileTooLarge) && waveformFile == old(waveformFile)) &&
      (file.size <= MaxFileSize ==> waveformFile == Some(file)) &&
      (file.size <= MaxFileSize && transcription.Fail? ==> RunFailed(transcription.message)) &&
      (file.size <= MaxFileSize && transcription.Pass? && encoded.None? ==> RunFailed(MidiFailure)) &&
      (file.size <= MaxFileSize && transcription.Pass? && encoded.Some? ==> RunCompleted(file, encoded.value))
    }

    /**
     * The page as parsed (banner hidden, result section and download link
     * hidden, no file selected), followed by the DOMContentLoaded handler
     * `initializeApp`.
     */
    constructor Load(backend: Outcome, modelLoad: bool, viewer: Outcome)
      ensures Valid()
      ensures files == [] && waveformFile == None
      ensures ResultView() == ResultArea(Hidden, None, None, "", Hidden)
      ensures modelLoaded <==> backend.Pass? && modelLoad
      ensures viewerCreated <==> backend.Pass? && modelLoad && viewer.Pass?
      ensures viewerCreated ==> Some(ButtonView()) == StateButton(Ready) && BannerView() == Banner("", true)
      ensures backend.Fail? ==> InitFailed(backend.message, InitializingLabel)
      ensures backend.Pass? && !modelLoad ==> InitFailed(ModelLoadFailure, LoadingStatus)
      ensures backend.Pass? && modelLoad && viewer.Fail? ==> InitFailed(viewer.message, LoadingStatus)
    {
      files := [];
      processDisabled, btnText, spinnerDisplay := true, InitializingLabel, SpinnerShown;
      errorText, errorHidden := "", true;
      resultDisplay, previewFile := Hidden, None;
      downloadBlob, downloadName, downloadDisplay := None, "", Hidden;
      waveformFile := None;
      modelLoaded, viewerCreated := false, false;
      new;
      InitializeApp(backend, modelLoad, viewer);
    }

    /**
     * `initializeApp`: configure the backend, load the transcription model,
     * create the waveform viewer, then become ready. The first failure shows
     * the error banner and leaves the button disabled with whatever label
     * was last written.
     */
    method InitializeApp(backend: Outcome, modelLoad: bool, viewer: Outcome)
      requires !modelLoaded && !viewerCreated
      modifies this`processDisabled, this`btnText, this`spinnerDisplay,
               this`errorText, this`errorHidden, this`modelLoaded, this`viewerCreated
      ensures Valid()
      ensures modelLoaded <==> backend.Pass? && modelLoad
      ensures viewerCreated <==> backend.Pass? && modelLoad && viewer.Pass?
      ensures viewerCreated ==> Some(ButtonView()) == StateButton(Ready) && BannerView() == old(BannerView())
      ensures backend.Fail? ==> InitFailed(backend.message, InitializingLabel)
      ensures backend.Pass? && !modelLoad ==> InitFailed(ModelLoadFailure, LoadingStatus)
      ensures backend.Pass? && modelLoad && viewer.Fail? ==> InitFailed(viewer.message, LoadingStatus)
    {
      var failure: Option<string> := None;
      UpdateUIState(Initializing);
      if backend.Fail? {
        failure := Some(backend.message);
      } else {
        UpdateStatus(CpuStatus);
        // loadTranscriptionModel
        UpdateStatus(LoadingStatus);
        if !modelLoad {
          failure := Some(ModelLoadFailure);
        } else {
          modelLoaded := true;
          if viewer.Fail? {
            failure := Some(viewer.message);
          } else {
            viewerCreated := true;
            UpdateUIState(Ready);
          }
        }
      }
      if failure.Some? {
        ShowError(InitErrorPrefix + failure.value);
      }
    }

    /**
     * `processAudioFile`: enter `processing`, refuse files over the size
     * limit, hand the file to the waveform viewer, transcribe, encode and
     * offer the download. The first failure shows the banner and returns to
     * `ready`.
     */
    method ProcessAudioFile(file: AudioFile, transcription: Outcome, encoded: Option<seq<bv8>>)
      requires modelLoaded && viewerCreated
      modifies this`processDisabled, this`btnText, this`spinnerDisplay,
               this`errorText, this`errorHidden, this`resultDisplay, this`previewFile,
               this`downloadBlob, this`downloadName, this`downloadDisplay, this`waveformFile
      ensures Valid()
      ensures Processed(file, transcription, encoded)
    {
      var failure: Option<string> := None;
      UpdateUIState(Processing);
      if file.size > MaxFileSize {
        failure := Some(FileTooLarge);
      } else {
        waveformFile := Some(file);
        UpdateStatus(AnalysingStatus);
        match transcription
        case Fail(message) =>
          failure := Some(message);
        case Pass =>
          UpdateStatus(EncodingStatus);
          var midi := GenerateMidiFile(encoded);
          match midi
          case Failure(message) =>
            failure := Some(message);
          case Success(blob) =>
            PrepareDownload(blob, file.name);
            previewFile := Some(file);
            resultDisplay := Shown;
            UpdateUIState(Completed);
      }
      if failure.Some? {
        ShowError(ProcessErrorPrefix + failure.value);
        UpdateUIState(Ready);
      }
    }

    /** `prepareDownload`: point the download link at the Blob under the derived name and show it. */
    method PrepareDownload(blob: Blob, originalFilename: string)
      modifies this`downloadBlob, this`downloadName, this`downloadDisplay
      ensures downloadBlob == Some(blob)
      ensures downloadName == MidiFilename(originalFilename)
      ensures downloadDisplay == Shown
    {
      downloadName := MidiFilename(originalFilename);
      downloadBlob := Some(blob);
      downloadDisplay := Shown;
    }

    /** `updateUIState`: write the triple of a recognised state; ignore any other name. */
    method UpdateUIState(state: string)
      modifies this`processDisabled, this`btnText, this`spinnerDisplay
      ensures ButtonView() == Project(old(ButtonView()), state)
    {
      if state == Initializing {
        processDisabled := true;
        btnText := InitializingLabel;
        spinnerDisplay := SpinnerShown;
      } else if state == Ready {
        processDisabled := false;
        btnText := ReadyLabel;
        spinnerDisplay := SpinnerHidden;
      } else if state == Processing {
        processDisabled := true;
        btnText := ProcessingLabel;
        spinnerDisplay := SpinnerShown;
      } else if state == Completed {
        processDisabled := false;
        btnText := CompletedLabel;
        spinnerDisplay := SpinnerHidden;
      }
    }

    /** `updateStatus`: overwrite the button label only. */
    method UpdateStatus(message: string)
      modifies this`btnText
      ensures btnText == message
    {
      btnText := message;
    }

    /** `showError`: set the banner text and make it visible (the 5 s auto-hide is not modelled). */
    method ShowError(message: string)
      modifies this`errorText, this`errorHidden
      ensures BannerView() == Banner(message, false)
    {
      errorText := message;
      errorHidden := false;
    }

    /**
     * The `change` listener of the file input, after the browser has stored
     * the new selection: hide the results and the banner when some file was chosen.
     */
    method ChangeFiles(selection: seq<AudioFile>)
      requires Valid()
      modifies this`files, this`resultDisplay, this`errorHidden
      ensures Valid()
      ensures files == selection
      ensures |selection| > 0 ==> resultDisplay == Hidden && errorHidden
      ensures |selection| == 0 ==> resultDisplay == old(resultDisplay) && errorHidden == old(errorHidden)
    {
      files := selection;
      if |selection| > 0 {
        resultDisplay := Hidden;
        errorHidden := true;
      }
    }

    /**
     * A click on the process button. The browser delivers no click to a
     * disabled button; otherwise the `click` listener runs: process the
     * first selected file, or complain that none is selected.
     */
    method ClickProcessButton(transcription: Outcome, encoded: Option<seq<bv8>>)
      requires Valid()
      modifies this`processDisabled, this`btnText, this`spinnerDisplay,
               this`errorText, this`errorHidden, this`resultDisplay, this`previewFile,
               this`downloadBlob, this`downloadName, this`downloadDisplay, this`waveformFile
      ensures Valid()
      ensures old(processDisabled) ==> unchanged(this)
      ensures !old(processDisabled) && old(files) == [] ==>
        ButtonView() == old(ButtonView()) && BannerView() == Banner(NoFileSelected, false) &&
        ResultView() == old(ResultView()) && waveformFile == old(waveformFile)
      ensures !old(processDisabled) && old(files) != [] ==> Processed(old(files)[0], transcription, encoded)
    {
      if processDisabled {
        return;
      }
      if |files| > 0 {
        ProcessAudioFile(files[0], transcription, encoded);
      } else {
        ShowError(NoFileSelected);
      }
    }
  }

  /**
   * After a failed start the page stays inert: selecting files and clicking
   * the button leave the button disabled, the spinner shown, the label that
   * initialization last wrote and the error text in place.
   */
  method FailedStartStaysInert(
    backend: Outcome, modelLoad: bool, viewer: Outcome,
    selection: seq<AudioFile>, transcription: Outcome, encoded: Option<seq<bv8>>)
    returns (app: App)
    requires backend.Fail? || !modelLoad || viewer.Fail?
    ensures app.processDisabled && app.spinnerDisplay == SpinnerShown
    ensures app.btnText == if backend.Fail? then InitializingLabel else LoadingStatus
    ensures app.errorText == InitErrorPrefix +
      if backend.Fail? then backend.message
      else if !modelLoad then ModelLoadFailure
      else viewer.message
  {
    app := new App.Load(backend, modelLoad, viewer);
    app.ChangeFiles(selection);
    app.ClickProcessButton(transcription, encoded);
  }
}
