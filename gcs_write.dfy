/*
 * The "google-cloud-gcs-write" node: per input message it checks that a
 * target and some data are present, picks the target URL (message
 * filename over configured filename), splits it into bucket and object
 * name, picks the content type (message, then configuration, then none)
 * and writes the payload; the message is forwarded once the write
 * finishes. The storage SDK is an abstract write whose outcome is a
 * parameter; what the node does is recorded as a trace of effects.
 */
module GcsWrite {
  import opened JsValues
  import opened GcsUrl

  /** The message properties the node reads. */
  datatype Message = Message(payload: Payload, filename: Option<string>, contentType: Option<string>)

  /** The node's configuration as the editor stores it. */
  datatype Config = Config(
    filename: string,
    contentType: string,
    account: Option<string>,
    keyFilename: Option<string>)

  /** How the storage client is built. */
  datatype StorageOptions =
    | WithCredentials(credentials: string)
    | WithKeyFile(keyFilename: string)
    | WithDefaults

  /** The options handed to createWriteStream. */
  datatype WriteOptions = WriteOptions(resumable: bool, contentType: Option<string>)

  /** How the write stream ends: a 'finish' event or an 'error' event carrying err.message. */
  datatype WriteOutcome = Finish | StreamError(message: string)

  /** What the node does to the outside world, in order. */
  datatype Effect =
    | ReportError(text: string)                        // node.error(text)
    | ReportErrorFor(text: string, msg: Message)       // node.error(text, msg)
    | Write(bucket: string, file: string, options: WriteOptions, data: Payload)
    | Send(msg: Message)                               // node.send(msg)

  function NoFilenameText(configured: string): string
  {
    "No filename found in msg.filename and no file name configured (" + configured + ")"
  }

  const NoDataText: string := "No data found in msg.payload"

  function BadUrlText(url: string): string
  {
    "Badly formed URL: " + url
  }

  function WriteErrorText(message: string): string
  {
    "writeStream error: " + message
  }

  /**
   * The storage client: credentials from the configured account win, then
   * the key file, then no options at all.
   */
  function SelectStorage(account: Option<string>, keyFilename: Option<string>,
                         credentialsOf: string -> string): (s: StorageOptions)
    ensures s.WithCredentials? <==> Truthy(account)
    ensures s.WithCredentials? ==> s.credentials == credentialsOf(account.value)
    ensures s.WithKeyFile? <==> !Truthy(account) && Truthy(keyFilename)
    ensures s.WithKeyFile? ==> s.keyFilename == keyFilename.value
  {
    if Truthy(account) then WithCredentials(credentialsOf(account.value))
    else if Truthy(keyFilename) then WithKeyFile(keyFilename.value)
    else WithDefaults
  }

  /**
   * The URL to parse. A truthy msg.filename is used, trimmed, and the
   * configured (already trimmed) filename only stands in when
   * msg.filename is falsy. A blank msg.filename is therefore not replaced
   * by the configured one: it trims to "" and that is a badly formed URL.
   */
  function SelectUrl(msgFilename: Option<string>, configured: string): (url: string)
    ensures Truthy(msgFilename) ==> url == Trim(msgFilename.value)
    ensures !Truthy(msgFilename) ==> url == configured
    ensures Truthy(msgFilename) && (forall k :: 0 <= k < |msgFilename.value| ==> IsTrimmable(msgFilename.value[k]))
            ==> ParseGsUrl(url).None?
  {
    if Truthy(msgFilename) then Trim(msgFilename.value) else configured
  }

  /** The content type: a truthy msg.contentType, else a non-empty configured one, else none. */
  function SelectContentType(msgContentType: Option<string>, configured: string): (r: Option<string>)
    ensures r.Some? <==> Truthy(msgContentType) || configured != ""
    ensures Truthy(msgContentType) ==> r == msgContentType
    ensures !Truthy(msgContentType) && configured != "" ==> r == Some(configured)
    ensures r != Some("")
  {
    if Truthy(msgContentType) then msgContentType
    else if configured != "" then Some(configured)
    else None
  }

  /**
   * The effects that follow a successful parse: exactly one write, and
   * one send of the input message if and only if the write finished.
   */
  function WriteEffects(bucket: string, file: string, options: WriteOptions,
                        msg: Message, outcome: WriteOutcome): (effects: seq<Effect>)
    ensures WriteCount(effects) == 1 && OnlySends(effects, msg)
    ensures SendCount(effects) == (if outcome.Finish? then 1 else 0)
  {
    var effects := [Write(bucket, file, options, msg.payload)]
      + match outcome
        case Finish => [Send(msg)]
        case StreamError(m) => [ReportErrorFor(WriteErrorText(m), msg)];
    assert |effects| == 2 && effects[0].Write? && !effects[1].Write?;
    assert effects[1..][1..] == [];
    assert WriteCount(effects[1..]) == 0;
    assert SendCount(effects[1..]) == (if outcome.Finish? then 1 else 0);
    effects
  }

  /** Every Send in a trace forwards the given message. */
  predicate OnlySends(effects: seq<Effect>, msg: Message)
  {
    forall k :: 0 <= k < |effects| && effects[k].Send? ==> effects[k].msg == msg
  }

  /** The number of Send effects in a trace. */
  function SendCount(effects: seq<Effect>): nat
  {
    if effects == [] then 0
    else (if effects[0].Send? then 1 else 0) + SendCount(effects[1..])
  }

  /** The number of Write effects in a trace. */
  function WriteCount(effects: seq<Effect>): nat
  {
    if effects == [] then 0
    else (if effects[0].Write? then 1 else 0) + WriteCount(effects[1..])
  }

  /** A node instance: the trimmed configuration and the storage client, fixed at creation. */
  class GcsWriteNode {
    const fileNameOptions: string
    const contentTypeOptions: string
    const storage: StorageOptions

    /** Creating the node; credentialsOf stands for reading the account's credentials. */
    constructor (config: Config, credentialsOf: string -> string)
      ensures fileNameOptions == Trim(config.filename)
      ensures contentTypeOptions == Trim(config.contentType)
      ensures storage == SelectStorage(config.account, config.keyFilename, credentialsOf)
    {
      fileNameOptions := Trim(config.filename);
      contentTypeOptions := Trim(config.contentType);
      storage := SelectStorage(config.account, config.keyFilename, credentialsOf);
    }

    /**
     * Handling one input message, given how the write stream will end.
     * A missing target is reported before a missing payload; each failed
     * check reports exactly one error and writes and forwards nothing.
     * Otherwise the payload is written once, non-resumably, to the parsed
     * bucket and object with the selected content type, and the message
     * is forwarded only if the write finishes.
     */
    method Input(msg: Message, outcome: WriteOutcome) returns (effects: seq<Effect>)
      ensures !Truthy(msg.filename) && fileNameOptions == ""
              ==> effects == [ReportError(NoFilenameText(fileNameOptions))]
      ensures (Truthy(msg.filename) || fileNameOptions != "") && !PayloadTruthy(msg.payload)
              ==> effects == [ReportError(NoDataText)]
      ensures (Truthy(msg.filename) || fileNameOptions != "") && PayloadTruthy(msg.payload)
              && ParseGsUrl(SelectUrl(msg.filename, fileNameOptions)).None?
              ==> effects == [ReportError(BadUrlText(SelectUrl(msg.filename, fileNameOptions)))]
      ensures (Truthy(msg.filename) || fileNameOptions != "") && PayloadTruthy(msg.payload)
              && ParseGsUrl(SelectUrl(msg.filename, fileNameOptions)).Some?
              ==> var (bucket, file) := ParseGsUrl(SelectUrl(msg.filename, fileNameOptions)).value;
                  effects == WriteEffects(bucket, file,
                                          WriteOptions(false, SelectContentType(msg.contentType, contentTypeOptions)),
                                          msg, outcome)
      ensures WriteCount(effects) <= 1 && SendCount(effects) <= 1 && OnlySends(effects, msg)
      ensures SendCount(effects) == 1 <==> WriteCount(effects) == 1 && outcome.Finish?
      ensures forall k :: 0 <= k < |effects| && effects[k].Write? ==> !effects[k].options.resumable
    {
      if !Truthy(msg.filename) && fileNameOptions == "" {
        effects := [ReportError(NoFilenameText(fileNameOptions))];
        return;
      }
      if !PayloadTruthy(msg.payload) {
        effects := [ReportError(NoDataText)];
        return;
      }

      var gsUrl: string;
      if Truthy(msg.filename) {
        gsUrl := Trim(msg.filename.value);
      } else {
        gsUrl := fileNameOptions;
      }

      var parts := ParseGsUrl(gsUrl);
      if parts.None? {
        effects := [ReportError(BadUrlText(gsUrl))];
        return;
      }
      var (bucketName, fileName) := parts.value;

      var writeStreamOptions := WriteOptions(false, None);
      if Truthy(msg.contentType) {
        writeStreamOptions := writeStreamOptions.(contentType := msg.contentType);
      } else if contentTypeOptions != "" {
        writeStreamOptions := writeStreamOptions.(contentType := Some(contentTypeOptions));
      }

      effects := [Write(bucketName, fileName, writeStreamOptions, msg.payload)];
      match outcome {
        case Finish =>
          effects := effects + [Send(msg)];
        case StreamError(m) =>
          effects := effects + [ReportErrorFor(WriteErrorText(m), msg)];
      }
    }
  }
}
