/** A cell of memory behind a pointer. */
module Pointers {
  class Pointer<T> {
    var value: T

    constructor (value: T)
      ensures this.value == value
    {
      this.value := value;
    }
  }
}
