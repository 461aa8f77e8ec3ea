/** The fixed-layout descriptor that a sink places in a shared memory segment so that sources
    can rebuild a view of a frame without copying its pixels: two segment-relative handles (the
    pixel buffer and the sample record) and the matrix geometry and type code. */
module SharedFrame {

  import opened FixedWidth

  /** A handle issued by the shared-memory manager: an offset meaningful only inside the segment
      it came from. The header stores and returns it verbatim and never interprets it. */
  type Handle = int

  /** What the five accessors report, taken together. */
  datatype HeaderFields = HeaderFields(data: Handle, sample: Handle, rows: UInt64, cols: UInt64, typeCode: Int32)

  /** What the accessors report after `setParameters(data, sample, rows, cols, typeCode)`: the
      dimensions go through the `int` storage cells and come back sign-extended to `size_t`. */
  function Published(data: Handle, sample: Handle, rows: UInt64, cols: UInt64, typeCode: Int32): (f: HeaderFields)
    ensures f.data == data && f.sample == sample && f.typeCode == typeCode
    ensures rows < TWO_31 ==> f.rows == rows
    ensures cols < TWO_31 ==> f.cols == cols
  {
    HeaderFields(data, sample, ToUInt64(ToInt32(rows)), ToUInt64(ToInt32(cols)), typeCode)
  }

  /** The rows and columns survive publication exactly when both fit the `int` cells (or lie
      within 2^31 of 2^64); the handles and the type code always do. */
  lemma PublishedRoundTrip(data: Handle, sample: Handle, rows: UInt64, cols: UInt64, typeCode: Int32)
    ensures Published(data, sample, rows, cols, typeCode) == HeaderFields(data, sample, rows, cols, typeCode)
        <==> (rows < TWO_31 || TWO_64 - TWO_31 <= rows) && (cols < TWO_31 || TWO_64 - TWO_31 <= cols)
  {
    NarrowingRoundTrip(rows);
    NarrowingRoundTrip(cols);
  }

  class SharedFrameHeader {

    // Matrix metadata, held in `int` cells although the API speaks `size_t`
    var storedRows: Int32
    var storedCols: Int32
    var storedType: Int32

    // Interprocess handles to the matrix data and to the sample record
    var dataHandle: Handle
    var sampleHandle: Handle

    /** Rows, cols and type start at zero. The two handle cells have no initializer, so nothing
        is known about them until the first `SetParameters`. */
    constructor ()
      ensures storedRows == 0 && storedCols == 0 && storedType == 0
      ensures Rows() == 0 && Cols() == 0 && Type() == 0
    {
      storedRows, storedCols, storedType := 0, 0, 0;
    }

    /** `rows()`: the `int` cell converted to `size_t`. */
    function Rows(): (r: UInt64)
      reads this
      ensures 0 <= storedRows ==> r == storedRows
      ensures storedRows < 0 ==> r == storedRows + TWO_64
    {
      ToUInt64(storedRows)
    }

    /** `cols()`: the `int` cell converted to `size_t`. */
    function Cols(): (c: UInt64)
      reads this
      ensures 0 <= storedCols ==> c == storedCols
      ensures storedCols < 0 ==> c == storedCols + TWO_64
    {
      ToUInt64(storedCols)
    }

    function Type(): Int32
      reads this
    {
      storedType
    }

    function Sample(): Handle
      reads this
    {
      sampleHandle
    }

    function Data(): Handle
      reads this
    {
      dataHandle
    }

    /** All five accessors at once. */
    function Fields(): HeaderFields
      reads this
    {
      HeaderFields(Data(), Sample(), Rows(), Cols(), Type())
    }

    /** Overwrites all five cells. Every input is accepted, zero dimensions included; an
        earlier call leaves no trace. */
    method SetParameters(data: Handle, sample: Handle, rows: UInt64, cols: UInt64, typeCode: Int32)
      modifies this
      ensures dataHandle == data && sampleHandle == sample
      ensures storedRows == ToInt32(rows) && storedCols == ToInt32(cols) && storedType == typeCode
      ensures Fields() == Published(data, sample, rows, cols, typeCode)
    {
      dataHandle := data;
      sampleHandle := sample;
      storedRows := ToInt32(rows);
      storedCols := ToInt32(cols);
      storedType := typeCode;
    }
  }

  /** A header published twice reports exactly the second publication, whatever the first
      was; that is the second call's own values when its dimensions fit the storage cells. */
  method PublishTwice(first: HeaderFields, second: HeaderFields) returns (seen: HeaderFields)
    ensures seen == Published(second.data, second.sample, second.rows, second.cols, second.typeCode)
    ensures second.rows < TWO_31 && second.cols < TWO_31 ==> seen == second
  {
    var h := new SharedFrameHeader();
    h.SetParameters(first.data, first.sample, first.rows, first.cols, first.typeCode);
    h.SetParameters(second.data, second.sample, second.rows, second.cols, second.typeCode);
    seen := h.Fields();
  }

  /** A fresh header reports zero geometry; publishing a 640x480 frame of type 16 with data
      handle 42 and sample handle 7 makes every accessor report those values. */
  method PublishFresh() returns (before: (UInt64, UInt64, Int32), after: HeaderFields)
    ensures before == (0, 0, 0)
    ensures after == HeaderFields(42, 7, 480, 640, 16)
  {
    var h := new SharedFrameHeader();
    before := (h.Rows(), h.Cols(), h.Type());
    h.SetParameters(42, 7, 480, 640, 16);
    after := h.Fields();
  }
}
