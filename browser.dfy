/**
 * Browser entities the core handles but never looks inside. An object URL
 * (what `URL.createObjectURL` hands back) is an opaque token: the model only
 * compares tokens, and the environment supplies a new one wherever the source
 * creates one. A file is known by its name and its declared size in bytes.
 */
module Browser {

  datatype ObjectUrl = ObjectUrl(token: nat)

  datatype File = File(name: string, size: nat)
}
