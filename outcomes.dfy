/** Option, Result and the closed set of failures the command-line front end
    can end with: its own exception classes, the usage errors it raises
    through click, and the Python runtime errors its code paths can reach. */
module Outcomes {

  datatype Option<+T> = None | Some(value: T)

  datatype Error =
    | CoreNotInstalled
    | ConfigFileNotFound
    | BadFormat
      /** click.BadOptionUsage(option, message) */
    | BadOptionUsage(option: string, message: string)
      /** click.BadParameter(message) */
    | BadParameter(message: string)
      /** UnboundLocalError: a local read before any assignment */
    | UnboundLocal(name: string)
      /** TypeError: ordering or iteration applied to a value that does not support it */
    | TypeError
      /** AttributeError: `.upper()` called on a value that is not a string */
    | AttributeError
      /** OSError other than "No such file", re-raised by the TOML loader */
    | OsError

  datatype Result<+T> = Ok(value: T) | Err(error: Error)

  const InstRangeMessage: string := "Instructions should be" + "between 1 and 4096"
  const NoObjectMessage: string := "No object file specified\n"
  const EmptyAsmMessage: string := "Empty 'asm' section in configuration file\n"
  const InvalidTypeMessage: string := "Invalid output type specified\n"
  const AllWithOthersMessage: string := "Cannot specify 'ALL' " + "with any others\n"
  const NoTypeMessage: string := "No output type specified\n"
  const QuietMonitorMessage: string :=
    "Invalid Parameter Combination: " + "--quiet and --monitor cannot be used " + "together\n"

  /** The message raised when the configuration file lacks the command's section. */
  function NoSectionMessage(command: string): string
  {
    "No '" + command + "' section in configuration file\n"
  }
}
