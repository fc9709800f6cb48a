/** The scraper's dual-sink logger: one CSV file behind a buffering CSV
    writer and one JSONL file behind a JSON encoder. Each method is proved
    against the step function of `LoggerSpec` that describes it. */
module Logging {
  import opened LoggerSpec
  import opened Streams

  class Logger {
    const csvFile: File
    const jsonlFile: File
    const csvWriter: CsvWriter
    const jsonlEncoder: JsonEncoder

    /** The writer and the encoder sit on their own, distinct files. */
    ghost predicate Valid()
      reads this, csvWriter, jsonlEncoder
    {
      csvWriter.file == csvFile && jsonlEncoder.file == jsonlFile && csvFile != jsonlFile
    }

    /** What the four handles hold, as a `Sink` value. */
    ghost function State(): Sink
      reads this, csvFile, jsonlFile, csvWriter, jsonlEncoder
    {
      Sink(csvFile.isOpen, jsonlFile.isOpen, csvWriter.buffer, csvWriter.err, csvFile.records,
           jsonlEncoder.err, jsonlFile.records)
    }

    /** The struct literal of `newLogger`: a writer and an encoder over the
        two files just created. */
    constructor (csvFile: File, jsonlFile: File)
      requires csvFile != jsonlFile
      ensures Valid() && this.csvFile == csvFile && this.jsonlFile == jsonlFile
      ensures fresh(csvWriter) && fresh(jsonlEncoder)
      ensures State() == Sink(csvFile.isOpen, jsonlFile.isOpen, [], None, csvFile.records, None, jsonlFile.records)
    {
      this.csvFile := csvFile;
      this.jsonlFile := jsonlFile;
      csvWriter := new CsvWriter(csvFile);
      jsonlEncoder := new JsonEncoder(jsonlFile);
    }

    /** `newLogger(csvPath, jsonlPath)`. Creates the CSV file, then the JSONL
        file; when the second creation fails the first file is closed (its
        close error is dropped) and no logger is returned. `created` lists the
        files the call created. */
    static method NewLogger(csvPath: string, jsonlPath: string, csvCreate: Fault, jsonlCreate: Fault)
      returns (l: Logger?, err: Fault, ghost created: seq<File>)
      ensures err == if csvCreate.Some? then csvCreate else jsonlCreate
      ensures l == null <==> err.Some?
      ensures csvCreate.Some? ==> err == csvCreate && created == []
      ensures csvCreate.None? && jsonlCreate.Some? ==>
                err == jsonlCreate && |created| == 1 && fresh(created[0])
                && created[0].path == csvPath && !created[0].isOpen
      ensures l != null ==>
                fresh(l) && fresh(l.csvFile) && fresh(l.jsonlFile) && fresh(l.csvWriter) && fresh(l.jsonlEncoder)
                && l.Valid() && l.State() == Initial
                && l.csvFile.path == csvPath && l.jsonlFile.path == jsonlPath
                && created == [l.csvFile, l.jsonlFile]
      // no handle is left open unless it belongs to the returned logger
      ensures l == null ==> forall i :: 0 <= i < |created| ==> !created[i].isOpen
    {
      var csvF, e := Create(csvPath, csvCreate);
      if e.Some? {
        return null, e, [];
      }
      var jsonlF, e' := Create(jsonlPath, jsonlCreate);
      if e'.Some? {
        // the error of this close is dropped, so which fault it meets does not matter
        var _ := csvF.Close(None);
        return null, e', [csvF];
      }
      l := new Logger(csvF, jsonlF);
      err := None;
      created := [csvF, jsonlF];
    }

    /** `(*logger).Close`: flush the CSV writer, then close the CSV file,
        then the JSONL file, returning the first error met. */
    method Close(f: CloseFaults) returns (err: Fault)
      requires Valid()
      modifies csvFile, jsonlFile, csvWriter, jsonlEncoder
      ensures Valid()
      ensures (State(), err) == CloseStep(old(State()), f)
    {
      ghost var s := State();
      csvWriter.Flush(f.flush);
      assert State() == FlushCsv(s, f.flush);
      err := csvWriter.Error();
      if err.Some? {
        return;
      }
      err := csvFile.Close(f.csvClose);
      if err.Some? {
        return;
      }
      err := jsonlFile.Close(f.jsonlClose);
    }

    /** `(*logger).Log(key, value)`: the CSV row is written and flushed
        before the JSON line is encoded; the first error ends the call. */
    method Log(key: string, value: string, f: LogFaults) returns (err: Fault)
      requires Valid()
      modifies csvFile, jsonlFile, csvWriter, jsonlEncoder
      ensures Valid()
      ensures (State(), err) == LogStep(old(State()), Record(key, value), f)
    {
      ghost var s := State();
      var entry := Record(key, value);
      err := csvWriter.Write(entry, f.write);
      assert State() == WriteCsv(s, entry, f.write);
      if err.Some? {
        return;
      }
      ghost var s1 := State();
      csvWriter.Flush(f.flush);
      assert State() == FlushCsv(s1, f.flush);
      err := csvWriter.Error();
      if err.Some? {
        return;
      }
      ghost var s2 := State();
      err := jsonlEncoder.Encode(entry, f.encode);
      assert State() == EncodeJson(s2, entry, f.encode);
    }
  }
}
