/** Values produced or consumed by libraries the model does not look into:
    `uuid::Uuid`, `chrono::DateTime<Utc>`, `serde_json::Value`, and Rust's
    `i32`. The parsers and renderers of these libraries are passed to the
    model as function parameters, so nothing is assumed about them beyond
    their signatures. */
module Foreign {
  import opened Wrappers

  /** A 128-bit UUID; Postgres orders the `uuid` type by this number. */
  newtype Uuid = x: int | 0 <= x < 0x1_0000_0000_0000_0000_0000_0000_0000_0000

  /** An instant of `chrono::DateTime<Utc>`, in microseconds since the epoch. */
  datatype Timestamp = Timestamp(micros: int)

  /** A `serde_json::Value`; numbers are kept as their literal text. */
  datatype Json =
    | Null
    | Bool(b: bool)
    | Number(literal: string)
    | String(s: string)
    | Array(items: seq<Json>)
    | Object(members: seq<(string, Json)>)

  /** Rust's `i32`. */
  newtype i32 = x: int | -0x8000_0000 <= x < 0x8000_0000

  /** `Uuid::parse_str` / `Uuid::from_str`: may fail with a message. */
  type UuidParser = string -> Result<Uuid>

  /** `Uuid::to_string` / `String::from(Uuid)`. */
  type UuidRenderer = Uuid -> string

  /** `DateTime::to_string`. */
  type TimeRenderer = Timestamp -> string
}
