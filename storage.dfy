/**
  One key of the browser's localStorage as the page reads it back:
  `JSON.parse(localStorage.getItem(key))` inside a try/catch. The JSON codec
  itself is not modelled; a slot either was never written (or was removed),
  holds text that does not parse, or holds a parsed list.
 */
module Storage {
  datatype Slot<T> = Absent | Unreadable | Holds(items: seq<T>)

  /** The list the page works on: every slot that does not hold a list reads as empty. */
  function ReadList<T>(slot: Slot<T>): seq<T>
  {
    if slot.Holds? then slot.items else []
  }
}
