/** The size constants of the browser transport. */
module Transport {
  const CHUNK_BYTES := 32 * 1024
  const MAX_ENVELOPE_BYTES := 16 * 1024 * 1024
  const MAX_CONTENT_TYPE_BYTES := 1024
  const TAG_BYTES := 16
  const MAX_ENVELOPE_CHUNKS := (MAX_ENVELOPE_BYTES + MAX_CONTENT_TYPE_BYTES + 2) / CHUNK_BYTES + 1
  const MAX_CHUNK_DATA_CHARS := ((CHUNK_BYTES + 16) * 4 + 2) / 3
  const MAX_ENVELOPE_CIPHER_BYTES :=
    MAX_ENVELOPE_BYTES + MAX_CONTENT_TYPE_BYTES + 2 + MAX_ENVELOPE_CHUNKS * 16
  const MAX_SERVER_FRAME_BYTES := MAX_ENVELOPE_CIPHER_BYTES * 4 / 3 + MAX_ENVELOPE_CHUNKS * 64 + 4096
  const MAX_QUEUE_BYTES := MAX_SERVER_FRAME_BYTES
  const MAX_QUEUE_FRAMES := 2048
}
