/** The memory that a writer hands over by its address. */
module Buffers {
  /** Memory of a caller of write, which does not change while the call lasts. */
  class Buffer {
    const data: int

    constructor (data: int)
      ensures this.data == data
    {
      this.data := data;
    }
  }
}
