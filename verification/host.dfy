/** The parts of the Python runtime the model does not reimplement: date
    and float parsing, `str()` of values and exceptions, and formatting of
    the current time. Each is a total function supplied by the caller. */
module Host {
  import opened Outcomes
  import opened JsonValues
  import Calendar

  datatype Runtime = Runtime(
    /** `datetime.strptime(s, '%Y-%m-%d').toordinal()`, `None` on `ValueError`. */
    parseDate: string -> Option<int>,
    /** `float(s)`, `None` on `ValueError`. */
    parseFloat: string -> Option<real>,
    /** `str(v)` for a JSON value that is not a string. */
    show: Json -> string,
    /** `str(e)` for an exception. */
    describe: Exc -> string,
    /** `strftime('%Y-%m-%d')` of the day with the given ordinal. */
    dateText: int -> string,
    /** `datetime.now().isoformat()`. */
    isoText: Calendar.Now -> string)

  /** The text an f-string substitutes for a JSON value: a string as is,
      anything else through `str()`. */
  function Show(rt: Runtime, v: Json): (r: string)
    ensures v.Str? ==> r == v.s
  {
    if v.Str? then v.s else rt.show(v)
  }
}
