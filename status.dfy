/** The reply codes the client compares against, with the values of
    section 4.2 of RFC 959 (234 is from section 4 of RFC 2228). */
module Status {
  const AlreadyOpen := 125               // data connection already open; transfer starting
  const AboutToSend := 150               // file status okay; about to open data connection
  const CommandOK := 200
  const CommandNotImplemented := 202     // command not implemented, superfluous at this site
  const System := 211                    // system status (the FEAT reply)
  const Ready := 220                     // service ready for new user
  const ClosingDataConnection := 226
  const PassiveMode := 227
  const ExtendedPassiveMode := 229       // section 3 of RFC 2428
  const LoggedIn := 230
  const AuthOK := 234                    // security data exchange complete
  const RequestedFileActionOK := 250
  const PathCreated := 257
  const UserOK := 331                    // user name okay, need password
  const RequestFilePending := 350        // requested file action pending further information
  const BadArguments := 501
  const NotImplementedParameter := 504

  /** The sentinel `expected` value that disables the reply-code check. */
  const AnyCode := -1
}
