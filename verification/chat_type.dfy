/** The message shape a chat room exchanges with its clients. */
module ChatType {

  type Byte = b: int | 0 <= b < 256

  /** What a message carries. Chat content carries raw bytes; the user-count
      notice carries the count and the room name that the room serialises
      as its JSON body. */
  datatype Payload =
    | Bytes(bytes: seq<Byte>)
    | RoomCount(userCount: nat, roomName: string)

  /** A wire message: its type tag (the field `Type`), the room it names
      and its payload. The type tag is an open string: unknown tags are
      still delivered. */
  datatype Message = Message(kind: string, roomName: string, data: Payload)

  const TextKind: string := "text"
  const ImageKind: string := "image"
  const FileKind: string := "file"
  const OverKind: string := "over"
  const UserCountKind: string := "userCount"

  /** Only text, image and file messages enter the room's history: never
      the `over` marker that ends a replay, nor a user-count notice. */
  predicate Persistable(kind: string): (b: bool)
    ensures b ==> kind != OverKind && kind != UserCountKind
  {
    kind == TextKind || kind == ImageKind || kind == FileKind
  }
}
