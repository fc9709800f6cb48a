/** The three stream objects the logger owns: an open file handle, a
    buffering CSV writer over one file and a JSON line encoder over another.
    Row and line formats are not modelled; a file holds the records written to
    it. Every step that can fail takes a `Fault` input. */
module Streams {
  import opened LoggerSpec

  /** A file handle as `os.Create` returns it. */
  class File {
    const path: string
    var isOpen: bool
    var records: seq<Record>

    /** A freshly created (truncated) file, open for writing. */
    constructor (path: string)
      ensures this.path == path && isOpen && records == []
    {
      this.path := path;
      isOpen := true;
      records := [];
    }

    /** Writes `rs` to the file. A closed file reports `ErrClosed` whatever
        the fault says; an open one reports the fault, if any. */
    method Write(rs: seq<Record>, fault: Fault) returns (err: Fault)
      modifies this
      ensures isOpen == old(isOpen)
      ensures err == CloseResult(old(isOpen), fault)
      ensures records == if err.None? then old(records) + rs else old(records)
    {
      err := CloseResult(isOpen, fault);
      if err.None? {
        records := records + rs;
      }
    }

    /** Releases the handle, whether or not closing reports an error; a
        second close reports `ErrClosed`. */
    method Close(fault: Fault) returns (err: Fault)
      modifies this
      ensures !isOpen && records == old(records)
      ensures err == CloseResult(old(isOpen), fault)
    {
      err := CloseResult(isOpen, fault);
      isOpen := false;
    }
  }

  /** `os.Create(path)`: a new open file, or the creation error and no file. */
  method Create(path: string, fault: Fault) returns (f: File?, err: Fault)
    ensures err == fault
    ensures f == null <==> fault.Some?
    ensures f != null ==> fresh(f) && f.path == path && f.isOpen && f.records == []
  {
    err := fault;
    if fault.Some? {
      f := null;
    } else {
      f := new File(path);
    }
  }

  /** `csv.NewWriter(file)`: rows are buffered and reach the file on `Flush`.
      The first error it meets stays with it: every later `Write` and
      `Flush` reports that error and does nothing else. */
  class CsvWriter {
    const file: File
    var buffer: seq<Record>
    var err: Fault

    constructor (file: File)
      ensures this.file == file && buffer == [] && err == None
    {
      this.file := file;
      buffer := [];
      err := None;
    }

    /** Adds one row to the buffer; the result is the writer's error. */
    method Write(r: Record, fault: Fault) returns (e: Fault)
      modifies this
      ensures e == err
      ensures err == (if old(err).Some? then old(err) else fault)
      ensures buffer == if err.None? then old(buffer) + [r] else old(buffer)
    {
      if err.None? {
        if fault.Some? {
          err := fault;
        } else {
          buffer := buffer + [r];
        }
      }
      e := err;
    }

    /** Sends the buffered rows to the file; an empty buffer needs no write. */
    method Flush(fault: Fault)
      modifies this, file
      ensures file.isOpen == old(file.isOpen)
      ensures old(err).Some? || old(buffer) == [] ==>
                err == old(err) && buffer == old(buffer) && file.records == old(file.records)
      ensures old(err).None? && old(buffer) != [] ==>
                err == CloseResult(old(file.isOpen), fault)
                && buffer == (if err.None? then [] else old(buffer))
                && file.records == (if err.None? then old(file.records) + old(buffer) else old(file.records))
    {
      if err.None? && buffer != [] {
        err := file.Write(buffer, fault);
        if err.None? {
          buffer := [];
        }
      }
    }

    /** The error met by an earlier `Write` or `Flush`, if any, unchanged. */
    function Error(): (e: Fault)
      reads this
      ensures e.Some? <==> err.Some?
      ensures e.Some? ==> e == err
    {
      err
    }
  }

  /** `json.NewEncoder(file)`: each record becomes one line written straight
      to the file. Like the CSV writer it keeps its first error. */
  class JsonEncoder {
    const file: File
    var err: Fault

    constructor (file: File)
      ensures this.file == file && err == None
    {
      this.file := file;
      err := None;
    }

    method Encode(r: Record, fault: Fault) returns (e: Fault)
      modifies this, file
      ensures file.isOpen == old(file.isOpen)
      ensures e == err
      ensures err == if old(err).Some? then old(err) else CloseResult(old(file.isOpen), fault)
      ensures file.records == if old(err).None? && err.None? then old(file.records) + [r] else old(file.records)
    {
      if err.None? {
        err := file.Write([r], fault);
      }
      e := err;
    }
  }
}
