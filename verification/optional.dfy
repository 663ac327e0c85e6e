/** Values that may be missing: a key of a decoded JSON object, or a page number in an address. */
module Optional {

  /** `Absent` stands for a key missing from the object, or for no value at all. */
  datatype Maybe<+T> = Absent | Present(value: T) {

    /** Python's `obj.get(key, default)`: the value if the key is there, else `default`. */
    function Or(default: T): T {
      if Present? then value else default
    }
  }
}
