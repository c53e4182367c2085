/** The numeric constants and the initialiser lists of the four message arrays of
    rutil/Errdes.cxx.

    Each array of the source is an aggregate initialiser `T a[N] = { ... }`.  A per-index
    `match` stands for one: `case i =>` is the i-th initialiser, and the closing `case _`
    is the value C++ gives a slot that has no initialiser (0 for an `int`, the empty
    `string` for a `string`).  The array itself, with its declared size, is built where
    the source builds it, in the registry's `CreateMappingErrorMsg` methods.

    The constants come from system headers in the source.  Here they carry the values of
    Linux's `errno.h`, of OpenSSL's `ssl.h` and `x509_vfy.h`, and of winsock, which are the
    numbers the message strings print, except that on Linux `EWOULDBLOCK` is `EAGAIN` and
    `EDEADLOCK` is `EDEADLK`. */
module ErrorCodes {
  import opened MessageText

  /** One initialiser of a message array, kept in its parts: the constant's name, the
      number the text prints and the description.  `Blank` is a slot without an
      initialiser, which is the empty string. */
  datatype Slot = Init(name: string, number: nat, description: string) | Blank

  /** The errno array's text format, `NAME (description) number`. */
  function ErrnoText(s: Slot): (r: string)
    ensures r == "" <==> s.Blank?
  {
    match s
    case Blank => ""
    case Init(name, number, description) => name + " (" + description + ") " + Decimal(number)
  }

  /** The format of the other three arrays, `NAME number` followed, in the Windows array,
      by ` description`. */
  function NumberedText(s: Slot): (r: string)
    ensures r == "" <==> s.Blank?
  {
    match s
    case Blank => ""
    case Init(name, number, description) =>
      name + " " + Decimal(number) + (if description == "" then "" else " " + description)
  }

  // errno.h (Linux)
  const EPERM: int := 1
  const ENOENT: int := 2
  const ESRCH: int := 3
  const EINTR: int := 4
  const EIO: int := 5
  const ENXIO: int := 6
  const E2BIG: int := 7
  const ENOEXEC: int := 8
  const EBADF: int := 9
  const ECHILD: int := 10
  const EAGAIN: int := 11
  const ENOMEM: int := 12
  const EACCES: int := 13
  const EFAULT: int := 14
  const ENOTBLK: int := 15
  const EBUSY: int := 16
  const EEXIST: int := 17
  const EXDEV: int := 18
  const ENODEV: int := 19
  const ENOTDIR: int := 20
  const EISDIR: int := 21
  const EINVAL: int := 22
  const ENFILE: int := 23
  const EMFILE: int := 24
  const ENOTTY: int := 25
  const ETXTBSY: int := 26
  const EFBIG: int := 27
  const ENOSPC: int := 28
  const ESPIPE: int := 29
  const EROFS: int := 30
  const EMLINK: int := 31
  const EPIPE: int := 32
  const EDOM: int := 33
  const ERANGE: int := 34
  const EDEADLK: int := 35
  const ENAMETOOLONG: int := 36
  const ENOLCK: int := 37
  const ENOSYS: int := 38
  const ENOTEMPTY: int := 39
  const ELOOP: int := 40
  const EWOULDBLOCK: int := EAGAIN
  const ENOMSG: int := 42
  const EIDRM: int := 43
  const ECHRNG: int := 44
  const EL2NSYNC: int := 45
  const EL3HLT: int := 46
  const EL3RST: int := 47
  const ELNRNG: int := 48
  const EUNATCH: int := 49
  const ENOCSI: int := 50
  const EL2HLT: int := 51
  const EBADE: int := 52
  const EBADR: int := 53
  const EXFULL: int := 54
  const ENOANO: int := 55
  const EBADRQC: int := 56
  const EBADSLT: int := 57
  const EDEADLOCK: int := EDEADLK
  const EBFONT: int := 59
  const ENOSTR: int := 60
  const ENODATA: int := 61
  const ETIME: int := 62
  const ENOSR: int := 63
  const ENONET: int := 64
  const ENOPKG: int := 65
  const EREMOTE: int := 66
  const ENOLINK: int := 67
  const EADV: int := 68
  const ESRMNT: int := 69
  const ECOMM: int := 70
  const EPROTO: int := 71
  const EMULTIHOP: int := 72
  const EDOTDOT: int := 73
  const EBADMSG: int := 74
  const EOVERFLOW: int := 75
  const ENOTUNIQ: int := 76
  const EBADFD: int := 77
  const EREMCHG: int := 78
  const ELIBACC: int := 79
  const ELIBBAD: int := 80
  const ELIBSCN: int := 81
  const ELIBMAX: int := 82
  const ELIBEXEC: int := 83
  const EILSEQ: int := 84
  const ERESTART: int := 85
  const ESTRPIPE: int := 86
  const EUSERS: int := 87
  const ENOTSOCK: int := 88
  const EDESTADDRREQ: int := 89
  const EMSGSIZE: int := 90
  const EPROTOTYPE: int := 91
  const ENOPROTOOPT: int := 92
  const EPROTONOSUPPORT: int := 93
  const ESOCKTNOSUPPORT: int := 94
  const EOPNOTSUPP: int := 95
  const EPFNOSUPPORT: int := 96
  const EAFNOSUPPORT: int := 97
  const EADDRINUSE: int := 98
  const EADDRNOTAVAIL: int := 99
  const ENETDOWN: int := 100
  const ENETUNREACH: int := 101
  const ENETRESET: int := 102
  const ECONNABORTED: int := 103
  const ECONNRESET: int := 104
  const ENOBUFS: int := 105
  const EISCONN: int := 106
  const ENOTCONN: int := 107
  const ESHUTDOWN: int := 108
  const ETOOMANYREFS: int := 109
  const ETIMEDOUT: int := 110
  const ECONNREFUSED: int := 111
  const EHOSTDOWN: int := 112
  const EHOSTUNREACH: int := 113
  const EALREADY: int := 114
  const EINPROGRESS: int := 115
  const ESTALE: int := 116
  const EUCLEAN: int := 117
  const ENOTNAM: int := 118
  const ENAVAIL: int := 119
  const EISNAM: int := 120
  const EREMOTEIO: int := 121
  const EDQUOT: int := 122
  const ENOMEDIUM: int := 123
  const EMEDIUMTYPE: int := 124
  const ECANCELED: int := 125
  const ENOKEY: int := 126
  const EKEYEXPIRED: int := 127
  const EKEYREVOKED: int := 128
  const EKEYREJECTED: int := 129
  const EOWNERDEAD: int := 130
  const ENOTRECOVERABLE: int := 131
  const ERFKILL: int := 132
  const EHWPOISON: int := 133

  // ssl.h
  const SSL_ERROR_NONE: int := 0
  const SSL_ERROR_SSL: int := 1
  const SSL_ERROR_WANT_READ: int := 2
  const SSL_ERROR_WANT_WRITE: int := 3
  const SSL_ERROR_WANT_X509_LOOKUP: int := 4
  const SSL_ERROR_SYSCALL: int := 5
  const SSL_ERROR_ZERO_RETURN: int := 6
  const SSL_ERROR_WANT_CONNECT: int := 7
  const SSL_ERROR_WANT_ACCEPT: int := 8

  // x509_vfy.h
  const X509_V_OK: int := 0
  const X509_V_ERR_UNABLE_TO_GET_ISSUER_CERT: int := 2
  const X509_V_ERR_UNABLE_TO_GET_CRL: int := 3
  const X509_V_ERR_UNABLE_TO_DECRYPT_CERT_SIGNATURE: int := 4
  const X509_V_ERR_UNABLE_TO_DECRYPT_CRL_SIGNATURE: int := 5
  const X509_V_ERR_UNABLE_TO_DECODE_ISSUER_PUBLIC_KEY: int := 6
  const X509_V_ERR_CERT_SIGNATURE_FAILURE: int := 7
  const X509_V_ERR_CRL_SIGNATURE_FAILURE: int := 8
  const X509_V_ERR_CERT_NOT_YET_VALID: int := 9
  const X509_V_ERR_CERT_HAS_EXPIRED: int := 10
  const X509_V_ERR_CRL_NOT_YET_VALID: int := 11
  const X509_V_ERR_CRL_HAS_EXPIRED: int := 12
  const X509_V_ERR_ERROR_IN_CERT_NOT_BEFORE_FIELD: int := 13
  const X509_V_ERR_ERROR_IN_CERT_NOT_AFTER_FIELD: int := 14
  const X509_V_ERR_ERROR_IN_CRL_LAST_UPDATE_FIELD: int := 15
  const X509_V_ERR_ERROR_IN_CRL_NEXT_UPDATE_FIELD: int := 16
  const X509_V_ERR_OUT_OF_MEM: int := 17
  const X509_V_ERR_DEPTH_ZERO_SELF_SIGNED_CERT: int := 18
  const X509_V_ERR_SELF_SIGNED_CERT_IN_CHAIN: int := 19
  const X509_V_ERR_UNABLE_TO_GET_ISSUER_CERT_LOCALLY: int := 20
  const X509_V_ERR_UNABLE_TO_VERIFY_LEAF_SIGNATURE: int := 21
  const X509_V_ERR_CERT_CHAIN_TOO_LONG: int := 22
  const X509_V_ERR_CERT_REVOKED: int := 23
  const X509_V_ERR_INVALID_CA: int := 24
  const X509_V_ERR_PATH_LENGTH_EXCEEDED: int := 25
  const X509_V_ERR_INVALID_PURPOSE: int := 26
  const X509_V_ERR_CERT_UNTRUSTED: int := 27
  const X509_V_ERR_CERT_REJECTED: int := 28
  const X509_V_ERR_SUBJECT_ISSUER_MISMATCH: int := 29
  const X509_V_ERR_AKID_SKID_MISMATCH: int := 30
  const X509_V_ERR_AKID_ISSUER_SERIAL_MISMATCH: int := 31
  const X509_V_ERR_KEYUSAGE_NO_CERTSIGN: int := 32
  const X509_V_ERR_UNABLE_TO_GET_CRL_ISSUER: int := 33
  const X509_V_ERR_UNHANDLED_CRITICAL_EXTENSION: int := 34
  const X509_V_ERR_KEYUSAGE_NO_CRL_SIGN: int := 35
  const X509_V_ERR_UNHANDLED_CRITICAL_CRL_EXTENSION: int := 36
  const X509_V_ERR_INVALID_NON_CA: int := 37
  const X509_V_ERR_PROXY_PATH_LENGTH_EXCEEDED: int := 38
  const X509_V_ERR_KEYUSAGE_NO_DIGITAL_SIGNATURE: int := 39
  const X509_V_ERR_PROXY_CERTIFICATES_NOT_ALLOWED: int := 40
  const X509_V_ERR_INVALID_EXTENSION: int := 41
  const X509_V_ERR_INVALID_POLICY_EXTENSION: int := 42
  const X509_V_ERR_NO_EXPLICIT_POLICY: int := 43
  const X509_V_ERR_DIFFERENT_CRL_SCOPE: int := 44
  const X509_V_ERR_UNSUPPORTED_EXTENSION_FEATURE: int := 45
  const X509_V_ERR_UNNESTED_RESOURCE: int := 46
  const X509_V_ERR_PERMITTED_VIOLATION: int := 47
  const X509_V_ERR_EXCLUDED_VIOLATION: int := 48
  const X509_V_ERR_SUBTREE_MINMAX: int := 49
  const X509_V_ERR_APPLICATION_VERIFICATION: int := 50
  const X509_V_ERR_UNSUPPORTED_CONSTRAINT_TYPE: int := 51
  const X509_V_ERR_UNSUPPORTED_CONSTRAINT_SYNTAX: int := 52
  const X509_V_ERR_UNSUPPORTED_NAME_SYNTAX: int := 53
  const X509_V_ERR_CRL_PATH_VALIDATION_ERROR: int := 54

  // winsock; the source writes the overlapped-I/O code as SA_IO_PENDING
  const WSA_INVALID_HANDLE: int := 6
  const WSA_NOT_ENOUGH_MEMORY: int := 8
  const WSA_INVALID_PARAMETER: int := 87
  const WSA_OPERATION_ABORTED: int := 995
  const WSA_IO_INCOMPLETE: int := 996
  const WSA_IO_PENDING: int := 997
  const WSAEINTR: int := 10004
  const WSAEBADF: int := 10009
  const WSAEACCES: int := 10013
  const WSAEFAULT: int := 10014
  const WSAEINVAL: int := 10022
  const WSAEMFILE: int := 10024
  const WSAEWOULDBLOCK: int := 10035
  const WSAEINPROGRESS: int := 10036
  const WSAEALREADY: int := 10037
  const WSAENOTSOCK: int := 10038
  const WSAEDESTADDRREQ: int := 10039
  const WSAEMSGSIZE: int := 10040
  const WSAEPROTOTYPE: int := 10041
  const WSAENOPROTOOPT: int := 10042
  const WSAEPROTONOSUPPORT: int := 10043
  const WSAESOCKTNOSUPPORT: int := 10044
  const WSAEOPNOTSUPP: int := 10045
  const WSAEPFNOSUPPORT: int := 10046
  const WSAEAFNOSUPPORT: int := 10047
  const WSAEADDRINUSE: int := 10048
  const WSAEADDRNOTAVAIL: int := 10049
  const WSAENETDOWN: int := 10050
  const WSAENETUNREACH: int := 10051
  const WSAENETRESET: int := 10052
  const WSAECONNABORTED: int := 10053
  const WSAECONNRESET: int := 10054
  const WSAENOBUFS: int := 10055
  const WSAEISCONN: int := 10056
  const WSAENOTCONN: int := 10057
  const WSAESHUTDOWN: int := 10058
  const WSAETOOMANYREFS: int := 10059
  const WSAETIMEDOUT: int := 10060
  const WSAECONNREFUSED: int := 10061
  const WSAELOOP: int := 10062
  const WSAENAMETOOLONG: int := 10063
  const WSAEHOSTDOWN: int := 10064
  const WSAEHOSTUNREACH: int := 10065
  const WSAENOTEMPTY: int := 10066
  const WSAEPROCLIM: int := 10067
  const WSAEUSERS: int := 10068
  const WSAEDQUOT: int := 10069
  const WSAESTALE: int := 10070
  const WSAEREMOTE: int := 10071
  const WSASYSNOTREADY: int := 10091
  const WSAVERNOTSUPPORTED: int := 10092
  const WSANOTINITIALISED: int := 10093
  const WSAEDISCON: int := 10101
  const WSAENOMORE: int := 10102
  const WSAECANCELLED: int := 10103
  const WSAEINVALIDPROCTABLE: int := 10104
  const WSAEINVALIDPROVIDER: int := 10105
  const WSAEPROVIDERFAILEDINIT: int := 10106
  const WSASYSCALLFAILURE: int := 10107
  const WSASERVICE_NOT_FOUND: int := 10108
  const WSATYPE_NOT_FOUND: int := 10109
  const WSA_E_NO_MORE: int := 10110
  const WSA_E_CANCELLED: int := 10111
  const WSAEREFUSED: int := 10112
  const WSAHOST_NOT_FOUND: int := 11001
  const WSATRY_AGAIN: int := 11002
  const WSANO_RECOVERY: int := 11003
  const WSANO_DATA: int := 11004
  const WSA_QOS_RECEIVERS: int := 11005
  const WSA_QOS_SENDERS: int := 11006
  const WSA_QOS_NO_SENDERS: int := 11007
  const WSA_QOS_NO_RECEIVERS: int := 11008
  const WSA_QOS_REQUEST_CONFIRMED: int := 11009
  const WSA_QOS_ADMISSION_FAILURE: int := 11010
  const WSA_QOS_POLICY_FAILURE: int := 11011
  const WSA_QOS_BAD_STYLE: int := 11012
  const WSA_QOS_BAD_OBJECT: int := 11013
  const WSA_QOS_TRAFFIC_CTRL_ERROR: int := 11014
  const WSA_QOS_GENERIC_ERROR: int := 11015
  const WSA_QOS_ESERVICETYPE: int := 11016
  const WSA_QOS_EFLOWSPEC: int := 11017
  const WSA_QOS_EPROVSPECBUF: int := 11018
  const WSA_QOS_EFILTERSTYLE: int := 11019
  const WSA_QOS_EFILTERTYPE: int := 11020
  const WSA_QOS_EFILTERCOUNT: int := 11021
  const WSA_QOS_EOBJLENGTH: int := 11022
  const WSA_QOS_EFLOWCOUNT: int := 11023
  const WSA_QOS_EUNKOWNPSOBJ: int := 11024
  const WSA_QOS_EPOLICYOBJ: int := 11025
  const WSA_QOS_EFLOWDESC: int := 11026
  const WSA_QOS_EPSFLOWSPEC: int := 11027
  const WSA_QOS_EPSFILTERSPEC: int := 11028
  const WSA_QOS_ESDMODEOBJ: int := 11029
  const WSA_QOS_ESHAPERATEOBJ: int := 11030
  const WSA_QOS_RESERVED_PETYPE: int := 11031

  const ErrnoSlots := 134
  const OpenSslSlots := 9
  const X509Slots := 54
  const WindowsSlots := 95

  /** `ErrorCode[134]`: 133 initialisers, so slot 133 is 0. */
  function ErrnoCodeAt(i: int): (c: int)
    ensures 0 <= c <= 133
    ensures !(0 <= i < 133) ==> c == 0
  {
    match i
    case 0 => EPERM
    case 1 => ENOENT
    case 2 => ESRCH
    case 3 => EINTR
    case 4 => EIO
    case 5 => ENXIO
    case 6 => E2BIG
    case 7 => ENOEXEC
    case 8 => EBADF
    case 9 => ECHILD
    case 10 => EAGAIN
    case 11 => ENOMEM
    case 12 => EACCES
    case 13 => EFAULT
    case 14 => ENOTBLK
    case 15 => EBUSY
    case 16 => EEXIST
    case 17 => EXDEV
    case 18 => ENODEV
    case 19 => ENOTDIR
    case 20 => EISDIR
    case 21 => EINVAL
    case 22 => ENFILE
    case 23 => EMFILE
    case 24 => ENOTTY
    case 25 => ETXTBSY
    case 26 => EFBIG
    case 27 => ENOSPC
    case 28 => ESPIPE
    case 29 => EROFS
    case 30 => EMLINK
    case 31 => EPIPE
    case 32 => EDOM
    case 33 => ERANGE
    case 34 => EDEADLK
    case 35 => ENAMETOOLONG
    case 36 => ENOLCK
    case 37 => ENOSYS
    case 38 => ENOTEMPTY
    case 39 => ELOOP
    case 40 => EWOULDBLOCK
    case 41 => ENOMSG
    case 42 => EIDRM
    case 43 => ECHRNG
    case 44 => EL2NSYNC
    case 45 => EL3HLT
    case 46 => EL3RST
    case 47 => ELNRNG
    case 48 => EUNATCH
    case 49 => ENOCSI
    case 50 => EL2HLT
    case 51 => EBADE
    case 52 => EBADR
    case 53 => EXFULL
    case 54 => ENOANO
    case 55 => EBADRQC
    case 56 => EBADSLT
    case 57 => EDEADLOCK
    case 58 => EBFONT
    case 59 => ENOSTR
    case 60 => ENODATA
    case 61 => ETIME
    case 62 => ENOSR
    case 63 => ENONET
    case 64 => ENOPKG
    case 65 => EREMOTE
    case 66 => ENOLINK
    case 67 => EADV
    case 68 => ESRMNT
    case 69 => ECOMM
    case 70 => EPROTO
    case 71 => EMULTIHOP
    case 72 => EDOTDOT
    case 73 => EBADMSG
    case 74 => EOVERFLOW
    case 75 => ENOTUNIQ
    case 76 => EBADFD
    case 77 => EREMCHG
    case 78 => ELIBACC
    case 79 => ELIBBAD
    case 80 => ELIBSCN
    case 81 => ELIBMAX
    case 82 => ELIBEXEC
    case 83 => EILSEQ
    case 84 => ERESTART
    case 85 => ESTRPIPE
    case 86 => EUSERS
    case 87 => ENOTSOCK
    case 88 => EDESTADDRREQ
    case 89 => EMSGSIZE
    case 90 => EPROTOTYPE
    case 91 => ENOPROTOOPT
    case 92 => EPROTONOSUPPORT
    case 93 => ESOCKTNOSUPPORT
    case 94 => EOPNOTSUPP
    case 95 => EPFNOSUPPORT
    case 96 => EAFNOSUPPORT
    case 97 => EADDRINUSE
    case 98 => EADDRNOTAVAIL
    case 99 => ENETDOWN
    case 100 => ENETUNREACH
    case 101 => ENETRESET
    case 102 => ECONNABORTED
    case 103 => ECONNRESET
    case 104 => ENOBUFS
    case 105 => EISCONN
    case 106 => ENOTCONN
    case 107 => ESHUTDOWN
    case 108 => ETOOMANYREFS
    case 109 => ETIMEDOUT
    case 110 => ECONNREFUSED
    case 111 => EHOSTDOWN
    case 112 => EHOSTUNREACH
    case 113 => EALREADY
    case 114 => EINPROGRESS
    case 115 => ESTALE
    case 116 => EUCLEAN
    case 117 => ENOTNAM
    case 118 => ENAVAIL
    case 119 => EISNAM
    case 120 => EREMOTEIO
    case 121 => EDQUOT
    case 122 => ENOMEDIUM
    case 123 => EMEDIUMTYPE
    case 124 => ECANCELED
    case 125 => ENOKEY
    case 126 => EKEYEXPIRED
    case 127 => EKEYREVOKED
    case 128 => EKEYREJECTED
    case 129 => EOWNERDEAD
    case 130 => ENOTRECOVERABLE
    case 131 => ERFKILL
    case 132 => EHWPOISON
    case _ => 0
  }

  /** `ErrorString[134]`: 133 initialisers, so slot 133 is the empty string. */
  function ErrnoSlotAt(i: int): Slot
  {
    match i
    case 0 => Init("EPERM", 1, "Operation not permitted")
    case 1 => Init("ENOENT", 2, "No such file or directory")
    case 2 => Init("ESRCH", 3, "No such process")
    case 3 => Init("EINTR", 4, "Interrupted system call")
    case 4 => Init("EIO", 5, "Input/output error")
    case 5 => Init("ENXIO", 6, "No such device or address")
    case 6 => Init("E2BIG", 7, "Argument list too long")
    case 7 => Init("ENOEXEC", 8, "Exec format error")
    case 8 => Init("EBADF", 9, "Bad file descriptor")
    case 9 => Init("ECHILD", 10, "No child processes")
    case 10 => Init("EAGAIN", 11, "Resource temporarily unavailable")
    case 11 => Init("ENOMEM", 12, "Cannot allocate memory")
    case 12 => Init("EACCES", 13, "Permission denied")
    case 13 => Init("EFAULT", 14, "Bad address")
    case 14 => Init("ENOTBLK", 15, "Block device required")
    case 15 => Init("EBUSY", 16, "Device or resource busy")
    case 16 => Init("EEXIST", 17, "File exists")
    case 17 => Init("EXDEV", 18, "Invalid cross-device link")
    case 18 => Init("ENODEV", 19, "No such device")
    case 19 => Init("ENOTDIR", 20, "Not a directory")
    case 20 => Init("EISDIR", 21, "Is a directory")
    case 21 => Init("EINVAL", 22, "Invalid argument")
    case 22 => Init("ENFILE", 23, "Too many open files in system")
    case 23 => Init("EMFILE", 24, "Too many open files")
    case 24 => Init("ENOTTY", 25, "Inappropriate ioctl for device")
    case 25 => Init("ETXTBSY", 26, "Text file busy")
    case 26 => Init("EFBIG", 27, "File too large")
    case 27 => Init("ENOSPC", 28, "No space left on device")
    case 28 => Init("ESPIPE", 29, "Illegal seek")
    case 29 => Init("EROFS", 30, "Read-only file system")
    case 30 => Init("EMLINK", 31, "Too many links")
    case 31 => Init("EPIPE", 32, "Broken pipe")
    case 32 => Init("EDOM", 33, "Numerical argument out of domain")
    case 33 => Init("ERANGE", 34, "Numerical result out of range")
    case 34 => Init("EDEADLK", 35, "Resource deadlock avoided")
    case 35 => Init("ENAMETOOLONG", 36, "File name too long")
    case 36 => Init("ENOLCK", 37, "No locks available")
    case 37 => Init("ENOSYS", 38, "Function not implemented")
    case 38 => Init("ENOTEMPTY", 39, "Directory not empty")
    case 39 => Init("ELOOP", 40, "Too many levels of symbolic links")
    case 40 => Init("EWOULDBLOCK", 41, "Resource temporarily unavailable")
    case 41 => Init("ENOMSG", 42, "No message of desired type")
    case 42 => Init("EIDRM", 43, "Identifier removed")
    case 43 => Init("ECHRNG", 44, "Channel number out of range")
    case 44 => Init("EL2NSYNC", 45, "Level 2 not synchronized")
    case 45 => Init("EL3HLT", 46, "Level 3 halted")
    case 46 => Init("EL3RST", 47, "Level 3 reset")
    case 47 => Init("ELNRNG", 48, "Link number out of range")
    case 48 => Init("EUNATCH", 49, "Protocol driver not attached")
    case 49 => Init("ENOCSI", 50, "No CSI structure available")
    case 50 => Init("EL2HLT", 51, "Level 2 halted")
    case 51 => Init("EBADE", 52, "Invalid exchange")
    case 52 => Init("EBADR", 53, "Invalid request descriptor")
    case 53 => Init("EXFULL", 54, "Exchange full")
    case 54 => Init("ENOANO", 55, "No anode")
    case 55 => Init("EBADRQC", 56, "Invalid request code")
    case 56 => Init("EBADSLT", 57, "Invalid slot")
    case 57 => Init("EDEADLOCK", 58, "Resource deadlock avoided")
    case 58 => Init("EBFONT", 59, "Bad font file format")
    case 59 => Init("ENOSTR", 60, "Device not a stream")
    case 60 => Init("ENODATA", 61, "No data available")
    case 61 => Init("ETIME", 62, "Timer expired")
    case 62 => Init("ENOSR", 63, "Out of streams resources")
    case 63 => Init("ENONET", 64, "Machine is not on the network")
    case 64 => Init("ENOPKG", 65, "Package not installed")
    case 65 => Init("EREMOTE", 66, "Object is remote")
    case 66 => Init("ENOLINK", 67, "Link has been severed")
    case 67 => Init("EADV", 68, "Advertise error")
    case 68 => Init("ESRMNT", 69, "Srmount error")
    case 69 => Init("ECOMM", 70, "Communication error on send")
    case 70 => Init("EPROTO", 71, "Protocol error")
    case 71 => Init("EMULTIHOP", 72, "Multihop attempted")
    case 72 => Init("EDOTDOT", 73, "RFS specific error")
    case 73 => Init("EBADMSG", 74, "Bad message")
    case 74 => Init("EOVERFLOW", 75, "Value too large for defined data type")
    case 75 => Init("ENOTUNIQ", 76, "Name not unique on network")
    case 76 => Init("EBADFD", 77, "File descriptor in bad state")
    case 77 => Init("EREMCHG", 78, "Remote address changed")
    case 78 => Init("ELIBACC", 79, "Can not access a needed shared library")
    case 79 => Init("ELIBBAD", 80, "Accessing a corrupted shared library")
    case 80 => Init("ELIBSCN", 81, ".lib section in a.out corrupted")
    case 81 => Init("ELIBMAX", 82, "Attempting to link in too many shared libraries")
    case 82 => Init("ELIBEXEC", 83, "Cannot exec a shared library directly")
    case 83 => Init("EILSEQ", 84, "Invalid or incomplete multibyte or wide character")
    case 84 => Init("ERESTART", 85, "Interrupted system call should be restarted")
    case 85 => Init("ESTRPIPE", 86, "Streams pipe error")
    case 86 => Init("EUSERS", 87, "Too many users")
    case 87 => Init("ENOTSOCK", 88, "Socket operation on non-socket")
    case 88 => Init("EDESTADDRREQ", 89, "Destination address required")
    case 89 => Init("EMSGSIZE", 90, "Message too long")
    case 90 => Init("EPROTOTYPE", 91, "Protocol wrong type for socket")
    case 91 => Init("ENOPROTOOPT", 92, "Protocol not available")
    case 92 => Init("EPROTONOSUPPORT", 93, "Protocol not supported")
    case 93 => Init("ESOCKTNOSUPPORT", 94, "Socket type not supported")
    case 94 => Init("EOPNOTSUPP", 95, "Operation not supported")
    case 95 => Init("EPFNOSUPPORT", 96, "Protocol family not supported")
    case 96 => Init("EAFNOSUPPORT", 97, "Address family not supported by protocol")
    case 97 => Init("EADDRINUSE", 98, "Address already in use")
    case 98 => Init("EADDRNOTAVAIL", 99, "Cannot assign requested address")
    case 99 => Init("ENETDOWN", 100, "Network is down")
    case 100 => Init("ENETUNREACH", 101, "Network is unreachable")
    case 101 => Init("ENETRESET", 102, "Network dropped connection on reset")
    case 102 => Init("ECONNABORTED", 103, "Software caused connection abort")
    case 103 => Init("ECONNRESET", 104, "Connection reset by peer")
    case 104 => Init("ENOBUFS", 105, "No buffer space available")
    case 105 => Init("EISCONN", 106, "Transport endpoint is already connected")
    case 106 => Init("ENOTCONN", 107, "Transport endpoint is not connected")
    case 107 => Init("ESHUTDOWN", 108, "Cannot send after transport endpoint shutdown")
    case 108 => Init("ETOOMANYREFS", 109, "Too many references: cannot splice")
    case 109 => Init("ETIMEDOUT", 110, "Connection timed out")
    case 110 => Init("ECONNREFUSED", 111, "Connection refused")
    case 111 => Init("EHOSTDOWN", 112, "Host is down")
    case 112 => Init("EHOSTUNREACH", 113, "No route to host")
    case 113 => Init("EALREADY", 114, "Operation already in progress")
    case 114 => Init("EINPROGRESS", 115, "Operation now in progress")
    case 115 => Init("ESTALE", 116, "Stale file handle")
    case 116 => Init("EUCLEAN", 117, "Structure needs cleaning")
    case 117 => Init("ENOTNAM", 118, "Not a XENIX named type file")
    case 118 => Init("ENAVAIL", 119, "No XENIX semaphores available")
    case 119 => Init("EISNAM", 120, "Is a named type file")
    case 120 => Init("EREMOTEIO", 121, "Remote I/O error")
    case 121 => Init("EDQUOT", 122, "Disk quota exceeded")
    case 122 => Init("ENOMEDIUM", 123, "No medium found")
    case 123 => Init("EMEDIUMTYPE", 124, "Wrong medium type")
    case 124 => Init("ECANCELED", 125, "Operation canceled")
    case 125 => Init("ENOKEY", 126, "Required key not available")
    case 126 => Init("EKEYEXPIRED", 127, "Key has expired")
    case 127 => Init("EKEYREVOKED", 128, "Key has been revoked")
    case 128 => Init("EKEYREJECTED", 129, "Key was rejected by service")
    case 129 => Init("EOWNERDEAD", 130, "Owner died")
    case 130 => Init("ENOTRECOVERABLE", 131, "State not recoverable")
    case 131 => Init("ERFKILL", 132, "Operation not possible due to RF-kill")
    case 132 => Init("EHWPOISON", 133, "Memory page has hardware error")
    case _ => Blank
  }

  /** `OpenSSLCode[9]`. */
  function OpenSslCodeAt(i: int): (c: int)
    ensures 0 <= c < 9
  {
    match i
    case 0 => SSL_ERROR_NONE
    case 1 => SSL_ERROR_SSL
    case 2 => SSL_ERROR_WANT_READ
    case 3 => SSL_ERROR_WANT_WRITE
    case 4 => SSL_ERROR_WANT_X509_LOOKUP
    case 5 => SSL_ERROR_SYSCALL
    case 6 => SSL_ERROR_ZERO_RETURN
    case 7 => SSL_ERROR_WANT_CONNECT
    case 8 => SSL_ERROR_WANT_ACCEPT
    case _ => 0
  }

  /** `OpenSSLString[9]`. */
  function OpenSslSlotAt(i: int): (s: Slot)
    ensures s.Init? <==> 0 <= i < 9
    ensures s.Init? ==> s.number < 9
  {
    match i
    case 0 => Init("SSL_ERROR_NONE", 0, "")
    case 1 => Init("SSL_ERROR_SSL", 1, "")
    case 2 => Init("SSL_ERROR_WANT_READ", 2, "")
    case 3 => Init("SSL_ERROR_WANT_WRITE", 3, "")
    case 4 => Init("SSL_ERROR_WANT_X509_LOOKUP", 4, "")
    case 5 => Init("SSL_ERROR_SYSCALL", 5, "")
    case 6 => Init("SSL_ERROR_ZERO_RETURN", 6, "")
    case 7 => Init("SSL_ERROR_WANT_CONNECT", 7, "")
    case 8 => Init("SSL_ERROR_WANT_ACCEPT", 8, "")
    case _ => Blank
  }

  /** `X509ErrorCode[54]`. */
  function X509CodeAt(i: int): (c: int)
    ensures 0 <= c <= 54 && c != 1
  {
    match i
    case 0 => X509_V_OK
    case 1 => X509_V_ERR_UNABLE_TO_GET_ISSUER_CERT
    case 2 => X509_V_ERR_UNABLE_TO_GET_CRL
    case 3 => X509_V_ERR_UNABLE_TO_DECRYPT_CERT_SIGNATURE
    case 4 => X509_V_ERR_UNABLE_TO_DECRYPT_CRL_SIGNATURE
    case 5 => X509_V_ERR_UNABLE_TO_DECODE_ISSUER_PUBLIC_KEY
    case 6 => X509_V_ERR_CERT_SIGNATURE_FAILURE
    case 7 => X509_V_ERR_CRL_SIGNATURE_FAILURE
    case 8 => X509_V_ERR_CERT_NOT_YET_VALID
    case 9 => X509_V_ERR_CERT_HAS_EXPIRED
    case 10 => X509_V_ERR_CRL_NOT_YET_VALID
    case 11 => X509_V_ERR_CRL_HAS_EXPIRED
    case 12 => X509_V_ERR_ERROR_IN_CERT_NOT_BEFORE_FIELD
    case 13 => X509_V_ERR_ERROR_IN_CERT_NOT_AFTER_FIELD
    case 14 => X509_V_ERR_ERROR_IN_CRL_LAST_UPDATE_FIELD
    case 15 => X509_V_ERR_ERROR_IN_CRL_NEXT_UPDATE_FIELD
    case 16 => X509_V_ERR_OUT_OF_MEM
    case 17 => X509_V_ERR_DEPTH_ZERO_SELF_SIGNED_CERT
    case 18 => X509_V_ERR_SELF_SIGNED_CERT_IN_CHAIN
    case 19 => X509_V_ERR_UNABLE_TO_GET_ISSUER_CERT_LOCALLY
    case 20 => X509_V_ERR_UNABLE_TO_VERIFY_LEAF_SIGNATURE
    case 21 => X509_V_ERR_CERT_CHAIN_TOO_LONG
    case 22 => X509_V_ERR_CERT_REVOKED
    case 23 => X509_V_ERR_INVALID_CA
    case 24 => X509_V_ERR_PATH_LENGTH_EXCEEDED
    case 25 => X509_V_ERR_INVALID_PURPOSE
    case 26 => X509_V_ERR_CERT_UNTRUSTED
    case 27 => X509_V_ERR_CERT_REJECTED
    case 28 => X509_V_ERR_SUBJECT_ISSUER_MISMATCH
    case 29 => X509_V_ERR_AKID_SKID_MISMATCH
    case 30 => X509_V_ERR_AKID_ISSUER_SERIAL_MISMATCH
    case 31 => X509_V_ERR_KEYUSAGE_NO_CERTSIGN
    case 32 => X509_V_ERR_UNABLE_TO_GET_CRL_ISSUER
    case 33 => X509_V_ERR_UNHANDLED_CRITICAL_EXTENSION
    case 34 => X509_V_ERR_KEYUSAGE_NO_CRL_SIGN
    case 35 => X509_V_ERR_UNHANDLED_CRITICAL_CRL_EXTENSION
    case 36 => X509_V_ERR_INVALID_NON_CA
    case 37 => X509_V_ERR_PROXY_PATH_LENGTH_EXCEEDED
    case 38 => X509_V_ERR_KEYUSAGE_NO_DIGITAL_SIGNATURE
    case 39 => X509_V_ERR_PROXY_CERTIFICATES_NOT_ALLOWED
    case 40 => X509_V_ERR_INVALID_EXTENSION
    case 41 => X509_V_ERR_INVALID_POLICY_EXTENSION
    case 42 => X509_V_ERR_NO_EXPLICIT_POLICY
    case 43 => X509_V_ERR_DIFFERENT_CRL_SCOPE
    case 44 => X509_V_ERR_UNSUPPORTED_EXTENSION_FEATURE
    case 45 => X509_V_ERR_UNNESTED_RESOURCE
    case 46 => X509_V_ERR_PERMITTED_VIOLATION
    case 47 => X509_V_ERR_EXCLUDED_VIOLATION
    case 48 => X509_V_ERR_SUBTREE_MINMAX
    case 49 => X509_V_ERR_APPLICATION_VERIFICATION
    case 50 => X509_V_ERR_UNSUPPORTED_CONSTRAINT_TYPE
    case 51 => X509_V_ERR_UNSUPPORTED_CONSTRAINT_SYNTAX
    case 52 => X509_V_ERR_UNSUPPORTED_NAME_SYNTAX
    case 53 => X509_V_ERR_CRL_PATH_VALIDATION_ERROR
    case _ => 0
  }

  /** `X509ErrorString[54]`. */
  function X509SlotAt(i: int): (s: Slot)
    ensures s.Init? <==> 0 <= i < 54
  {
    match i
    case 0 => Init("X509_V_OK", 0, "")
    case 1 => Init("X509_V_ERR_UNABLE_TO_GET_ISSUER_CERT", 2, "")
    case 2 => Init("X509_V_ERR_UNABLE_TO_GET_CRL", 3, "")
    case 3 => Init("X509_V_ERR_UNABLE_TO_DECRYPT_CERT_SIGNATURE", 4, "")
    case 4 => Init("X509_V_ERR_UNABLE_TO_DECRYPT_CRL_SIGNATURE", 5, "")
    case 5 => Init("X509_V_ERR_UNABLE_TO_DECODE_ISSUER_PUBLIC_KEY", 6, "")
    case 6 => Init("X509_V_ERR_CERT_SIGNATURE_FAILURE", 7, "")
    case 7 => Init("X509_V_ERR_CRL_SIGNATURE_FAILURE", 8, "")
    case 8 => Init("X509_V_ERR_CERT_NOT_YET_VALID", 9, "")
    case 9 => Init("X509_V_ERR_CERT_HAS_EXPIRED", 10, "")
    case 10 => Init("X509_V_ERR_CRL_NOT_YET_VALID", 11, "")
    case 11 => Init("X509_V_ERR_CRL_HAS_EXPIRED", 12, "")
    case 12 => Init("X509_V_ERR_ERROR_IN_CERT_NOT_BEFORE_FIELD", 13, "")
    case 13 => Init("X509_V_ERR_ERROR_IN_CERT_NOT_AFTER_FIELD", 14, "")
    case 14 => Init("X509_V_ERR_ERROR_IN_CRL_LAST_UPDATE_FIELD", 15, "")
    case 15 => Init("X509_V_ERR_ERROR_IN_CRL_NEXT_UPDATE_FIELD", 16, "")
    case 16 => Init("X509_V_ERR_OUT_OF_MEM", 17, "")
    case 17 => Init("X509_V_ERR_DEPTH_ZERO_SELF_SIGNED_CERT", 18, "")
    case 18 => Init("X509_V_ERR_SELF_SIGNED_CERT_IN_CHAIN", 19, "")
    case 19 => Init("X509_V_ERR_UNABLE_TO_GET_ISSUER_CERT_LOCALLY", 20, "")
    case 20 => Init("X509_V_ERR_UNABLE_TO_VERIFY_LEAF_SIGNATURE", 21, "")
    case 21 => Init("X509_V_ERR_CERT_CHAIN_TOO_LONG", 22, "")
    case 22 => Init("X509_V_ERR_CERT_REVOKED", 23, "")
    case 23 => Init("X509_V_ERR_INVALID_CA", 24, "")
    case 24 => Init("X509_V_ERR_PATH_LENGTH_EXCEEDED", 25, "")
    case 25 => Init("X509_V_ERR_INVALID_PURPOSE", 26, "")
    case 26 => Init("X509_V_ERR_CERT_UNTRUSTED", 27, "")
    case 27 => Init("X509_V_ERR_CERT_REJECTED", 28, "")
    case 28 => Init("X509_V_ERR_SUBJECT_ISSUER_MISMATCH", 29, "")
    case 29 => Init("X509_V_ERR_AKID_SKID_MISMATCH", 30, "")
    case 30 => Init("X509_V_ERR_AKID_ISSUER_SERIAL_MISMATCH", 31, "")
    case 31 => Init("X509_V_ERR_KEYUSAGE_NO_CERTSIGN", 32, "")
    case 32 => Init("X509_V_ERR_UNABLE_TO_GET_CRL_ISSUER", 33, "")
    case 33 => Init("X509_V_ERR_UNHANDLED_CRITICAL_EXTENSION", 34, "")
    case 34 => Init("X509_V_ERR_KEYUSAGE_NO_CRL_SIGN", 35, "")
    case 35 => Init("X509_V_ERR_UNHANDLED_CRITICAL_CRL_EXTENSION", 36, "")
    case 36 => Init("X509_V_ERR_INVALID_NON_CA", 37, "")
    case 37 => Init("X509_V_ERR_PROXY_PATH_LENGTH_EXCEEDED", 38, "")
    case 38 => Init("X509_V_ERR_KEYUSAGE_NO_DIGITAL_SIGNATURE", 39, "")
    case 39 => Init("X509_V_ERR_PROXY_CERTIFICATES_NOT_ALLOWED", 40, "")
    case 40 => Init("X509_V_ERR_INVALID_EXTENSION", 41, "")
    case 41 => Init("X509_V_ERR_INVALID_POLICY_EXTENSION", 42, "")
    case 42 => Init("X509_V_ERR_NO_EXPLICIT_POLICY", 43, "")
    case 43 => Init("X509_V_ERR_DIFFERENT_CRL_SCOPE", 44, "")
    case 44 => Init("X509_V_ERR_UNSUPPORTED_EXTENSION_FEATURE", 45, "")
    case 45 => Init("X509_V_ERR_UNNESTED_RESOURCE", 46, "")
    case 46 => Init("X509_V_ERR_PERMITTED_VIOLATION", 47, "")
    case 47 => Init("X509_V_ERR_EXCLUDED_VIOLATION", 48, "")
    case 48 => Init("X509_V_ERR_SUBTREE_MINMAX", 49, "")
    case 49 => Init("X509_V_ERR_APPLICATION_VERIFICATION", 50, "")
    case 50 => Init("X509_V_ERR_UNSUPPORTED_CONSTRAINT_TYPE", 51, "")
    case 51 => Init("X509_V_ERR_UNSUPPORTED_CONSTRAINT_SYNTAX", 52, "")
    case 52 => Init("X509_V_ERR_UNSUPPORTED_NAME_SYNTAX", 53, "")
    case 53 => Init("X509_V_ERR_CRL_PATH_VALIDATION_ERROR", 54, "")
    case _ => Blank
  }

  /** `WindowsErrorCode[95]` in the order the source lists it: WSAENETRESET comes after WSAENOTCONN, six places later than its message in `WindowsErrorString`. */
  function WindowsCodeAsWrittenAt(i: int): (c: int)
    ensures 0 <= i < 95 ==> 6 <= c <= 11031
    ensures !(0 <= i < 95) ==> c == 0
  {
    match i
    case 0 => WSA_INVALID_HANDLE
    case 1 => WSA_NOT_ENOUGH_MEMORY
    case 2 => WSA_INVALID_PARAMETER
    case 3 => WSA_OPERATION_ABORTED
    case 4 => WSA_IO_INCOMPLETE
    case 5 => WSA_IO_PENDING
    case 6 => WSAEINTR
    case 7 => WSAEBADF
    case 8 => WSAEACCES
    case 9 => WSAEFAULT
    case 10 => WSAEINVAL
    case 11 => WSAEMFILE
    case 12 => WSAEWOULDBLOCK
    case 13 => WSAEINPROGRESS
    case 14 => WSAEALREADY
    case 15 => WSAENOTSOCK
    case 16 => WSAEDESTADDRREQ
    case 17 => WSAEMSGSIZE
    case 18 => WSAEPROTOTYPE
    case 19 => WSAENOPROTOOPT
    case 20 => WSAEPROTONOSUPPORT
    case 21 => WSAESOCKTNOSUPPORT
    case 22 => WSAEOPNOTSUPP
    case 23 => WSAEPFNOSUPPORT
    case 24 => WSAEAFNOSUPPORT
    case 25 => WSAEADDRINUSE
    case 26 => WSAEADDRNOTAVAIL
    case 27 => WSAENETDOWN
    case 28 => WSAENETUNREACH
    case 29 => WSAECONNABORTED
    case 30 => WSAECONNRESET
    case 31 => WSAENOBUFS
    case 32 => WSAEISCONN
    case 33 => WSAENOTCONN
    case 34 => WSAENETRESET
    case 35 => WSAESHUTDOWN
    case 36 => WSAETOOMANYREFS
    case 37 => WSAETIMEDOUT
    case 38 => WSAECONNREFUSED
    case 39 => WSAELOOP
    case 40 => WSAENAMETOOLONG
    case 41 => WSAEHOSTDOWN
    case 42 => WSAEHOSTUNREACH
    case 43 => WSAENOTEMPTY
    case 44 => WSAEPROCLIM
    case 45 => WSAEUSERS
    case 46 => WSAEDQUOT
    case 47 => WSAESTALE
    case 48 => WSAEREMOTE
    case 49 => WSASYSNOTREADY
    case 50 => WSAVERNOTSUPPORTED
    case 51 => WSANOTINITIALISED
    case 52 => WSAEDISCON
    case 53 => WSAENOMORE
    case 54 => WSAECANCELLED
    case 55 => WSAEINVALIDPROCTABLE
    case 56 => WSAEINVALIDPROVIDER
    case 57 => WSAEPROVIDERFAILEDINIT
    case 58 => WSASYSCALLFAILURE
    case 59 => WSASERVICE_NOT_FOUND
    case 60 => WSATYPE_NOT_FOUND
    case 61 => WSA_E_NO_MORE
    case 62 => WSA_E_CANCELLED
    case 63 => WSAEREFUSED
    case 64 => WSAHOST_NOT_FOUND
    case 65 => WSATRY_AGAIN
    case 66 => WSANO_RECOVERY
    case 67 => WSANO_DATA
    case 68 => WSA_QOS_RECEIVERS
    case 69 => WSA_QOS_SENDERS
    case 70 => WSA_QOS_NO_SENDERS
    case 71 => WSA_QOS_NO_RECEIVERS
    case 72 => WSA_QOS_REQUEST_CONFIRMED
    case 73 => WSA_QOS_ADMISSION_FAILURE
    case 74 => WSA_QOS_POLICY_FAILURE
    case 75 => WSA_QOS_BAD_STYLE
    case 76 => WSA_QOS_BAD_OBJECT
    case 77 => WSA_QOS_TRAFFIC_CTRL_ERROR
    case 78 => WSA_QOS_GENERIC_ERROR
    case 79 => WSA_QOS_ESERVICETYPE
    case 80 => WSA_QOS_EFLOWSPEC
    case 81 => WSA_QOS_EPROVSPECBUF
    case 82 => WSA_QOS_EFILTERSTYLE
    case 83 => WSA_QOS_EFILTERTYPE
    case 84 => WSA_QOS_EFILTERCOUNT
    case 85 => WSA_QOS_EOBJLENGTH
    case 86 => WSA_QOS_EFLOWCOUNT
    case 87 => WSA_QOS_EUNKOWNPSOBJ
    case 88 => WSA_QOS_EPOLICYOBJ
    case 89 => WSA_QOS_EFLOWDESC
    case 90 => WSA_QOS_EPSFLOWSPEC
    case 91 => WSA_QOS_EPSFILTERSPEC
    case 92 => WSA_QOS_ESDMODEOBJ
    case 93 => WSA_QOS_ESHAPERATEOBJ
    case 94 => WSA_QOS_RESERVED_PETYPE
    case _ => 0
  }

  /** `WindowsErrorCode[95]` in the order of `WindowsErrorString`, which is the order of the codes' values: the array the Windows branch evidently meant. */
  function WindowsCodeAt(i: int): (c: int)
    ensures 0 <= i < 95 ==> 6 <= c <= 11031
  {
    match i
    case 0 => WSA_INVALID_HANDLE
    case 1 => WSA_NOT_ENOUGH_MEMORY
    case 2 => WSA_INVALID_PARAMETER
    case 3 => WSA_OPERATION_ABORTED
    case 4 => WSA_IO_INCOMPLETE
    case 5 => WSA_IO_PENDING
    case 6 => WSAEINTR
    case 7 => WSAEBADF
    case 8 => WSAEACCES
    case 9 => WSAEFAULT
    case 10 => WSAEINVAL
    case 11 => WSAEMFILE
    case 12 => WSAEWOULDBLOCK
    case 13 => WSAEINPROGRESS
    case 14 => WSAEALREADY
    case 15 => WSAENOTSOCK
    case 16 => WSAEDESTADDRREQ
    case 17 => WSAEMSGSIZE
    case 18 => WSAEPROTOTYPE
    case 19 => WSAENOPROTOOPT
    case 20 => WSAEPROTONOSUPPORT
    case 21 => WSAESOCKTNOSUPPORT
    case 22 => WSAEOPNOTSUPP
    case 23 => WSAEPFNOSUPPORT
    case 24 => WSAEAFNOSUPPORT
    case 25 => WSAEADDRINUSE
    case 26 => WSAEADDRNOTAVAIL
    case 27 => WSAENETDOWN
    case 28 => WSAENETUNREACH
    case 29 => WSAENETRESET
    case 30 => WSAECONNABORTED
    case 31 => WSAECONNRESET
    case 32 => WSAENOBUFS
    case 33 => WSAEISCONN
    case 34 => WSAENOTCONN
    case 35 => WSAESHUTDOWN
    case 36 => WSAETOOMANYREFS
    case 37 => WSAETIMEDOUT
    case 38 => WSAECONNREFUSED
    case 39 => WSAELOOP
    case 40 => WSAENAMETOOLONG
    case 41 => WSAEHOSTDOWN
    case 42 => WSAEHOSTUNREACH
    case 43 => WSAENOTEMPTY
    case 44 => WSAEPROCLIM
    case 45 => WSAEUSERS
    case 46 => WSAEDQUOT
    case 47 => WSAESTALE
    case 48 => WSAEREMOTE
    case 49 => WSASYSNOTREADY
    case 50 => WSAVERNOTSUPPORTED
    case 51 => WSANOTINITIALISED
    case 52 => WSAEDISCON
    case 53 => WSAENOMORE
    case 54 => WSAECANCELLED
    case 55 => WSAEINVALIDPROCTABLE
    case 56 => WSAEINVALIDPROVIDER
    case 57 => WSAEPROVIDERFAILEDINIT
    case 58 => WSASYSCALLFAILURE
    case 59 => WSASERVICE_NOT_FOUND
    case 60 => WSATYPE_NOT_FOUND
    case 61 => WSA_E_NO_MORE
    case 62 => WSA_E_CANCELLED
    case 63 => WSAEREFUSED
    case 64 => WSAHOST_NOT_FOUND
    case 65 => WSATRY_AGAIN
    case 66 => WSANO_RECOVERY
    case 67 => WSANO_DATA
    case 68 => WSA_QOS_RECEIVERS
    case 69 => WSA_QOS_SENDERS
    case 70 => WSA_QOS_NO_SENDERS
    case 71 => WSA_QOS_NO_RECEIVERS
    case 72 => WSA_QOS_REQUEST_CONFIRMED
    case 73 => WSA_QOS_ADMISSION_FAILURE
    case 74 => WSA_QOS_POLICY_FAILURE
    case 75 => WSA_QOS_BAD_STYLE
    case 76 => WSA_QOS_BAD_OBJECT
    case 77 => WSA_QOS_TRAFFIC_CTRL_ERROR
    case 78 => WSA_QOS_GENERIC_ERROR
    case 79 => WSA_QOS_ESERVICETYPE
    case 80 => WSA_QOS_EFLOWSPEC
    case 81 => WSA_QOS_EPROVSPECBUF
    case 82 => WSA_QOS_EFILTERSTYLE
    case 83 => WSA_QOS_EFILTERTYPE
    case 84 => WSA_QOS_EFILTERCOUNT
    case 85 => WSA_QOS_EOBJLENGTH
    case 86 => WSA_QOS_EFLOWCOUNT
    case 87 => WSA_QOS_EUNKOWNPSOBJ
    case 88 => WSA_QOS_EPOLICYOBJ
    case 89 => WSA_QOS_EFLOWDESC
    case 90 => WSA_QOS_EPSFLOWSPEC
    case 91 => WSA_QOS_EPSFILTERSPEC
    case 92 => WSA_QOS_ESDMODEOBJ
    case 93 => WSA_QOS_ESHAPERATEOBJ
    case 94 => WSA_QOS_RESERVED_PETYPE
    case _ => 0
  }

  /** `WindowsErrorString[95]`. */
  function WindowsSlotAt(i: int): Slot
  {
    match i
    case 0 => Init("WSA_INVALID_HANDLE", 6, "Specified event object handle is invalid.")
    case 1 => Init("WSA_NOT_ENOUGH_MEMORY", 8, "Insufficient memory available.")
    case 2 => Init("WSA_INVALID_PARAMETER", 87, "One or more parameters are invalid.")
    case 3 => Init("WSA_OPERATION_ABORTED", 995, "Overlapped operation aborted.")
    case 4 => Init("WSA_IO_INCOMPLETE", 996, "Overlapped I/O event object not in signaled state.")
    case 5 => Init("SA_IO_PENDING", 997, "Overlapped operations will complete later.")
    case 6 => Init("WSAEINTR", 10004, "Interrupted function call.")
    case 7 => Init("WSAEBADF", 10009, "File handle is not valid.")
    case 8 => Init("WSAEACCES", 10013, "Permission denied.")
    case 9 => Init("WSAEFAULT", 10014, "Bad address.")
    case 10 => Init("WSAEINVAL", 10022, "Invalid argument.")
    case 11 => Init("WSAEMFILE", 10024, "Too many open files.")
    case 12 => Init("WSAEWOULDBLOCK", 10035, "Resource temporarily unavailable.")
    case 13 => Init("WSAEINPROGRESS", 10036, "Operation now in progress.")
    case 14 => Init("WSAEALREADY", 10037, "Operation already in progress.")
    case 15 => Init("WSAENOTSOCK", 10038, "Socket operation on nonsocket.")
    case 16 => Init("WSAEDESTADDRREQ", 10039, "Destination address required.")
    case 17 => Init("WSAEMSGSIZE", 10040, "Message too long.")
    case 18 => Init("WSAEPROTOTYPE", 10041, "Protocol wrong type for socket.")
    case 19 => Init("WSAENOPROTOOPT", 10042, "Bad protocol option.")
    case 20 => Init("WSAEPROTONOSUPPORT", 10043, "Protocol not supported.")
    case 21 => Init("WSAESOCKTNOSUPPORT", 10044, "Socket type not supported.")
    case 22 => Init("WSAEOPNOTSUPP", 10045, "Operation not supported.")
    case 23 => Init("WSAEPFNOSUPPORT", 10046, "Protocol family not supported.")
    case 24 => Init("WSAEAFNOSUPPORT", 10047, "Address family not supported by protocol family.")
    case 25 => Init("WSAEADDRINUSE", 10048, "Address already in use.")
    case 26 => Init("WSAEADDRNOTAVAIL", 10049, "Cannot assign requested address.")
    case 27 => Init("WSAENETDOWN", 10050, "Network is down.")
    case 28 => Init("WSAENETUNREACH", 10051, "Network is unreachable.")
    case 29 => Init("WSAENETRESET", 10052, "Network dropped connection on reset.")
    case 30 => Init("WSAECONNABORTED", 10053, "Software caused connection abort.")
    case 31 => Init("WSAECONNRESET", 10054, "Connection reset by peer.")
    case 32 => Init("WSAENOBUFS", 10055, "No buffer space available.")
    case 33 => Init("WSAEISCONN", 10056, "Socket is already connected.")
    case 34 => Init("WSAENOTCONN", 10057, "Socket is not connected.")
    case 35 => Init("WSAESHUTDOWN", 10058, "Cannot send after socket shutdown.")
    case 36 => Init("WSAETOOMANYREFS", 10059, "Too many references.")
    case 37 => Init("WSAETIMEDOUT", 10060, "Connection timed out.")
    case 38 => Init("WSAECONNREFUSED", 10061, "Connection refused.")
    case 39 => Init("WSAELOOP", 10062, "Cannot translate name.")
    case 40 => Init("WSAENAMETOOLONG", 10063, "Name too long.")
    case 41 => Init("WSAEHOSTDOWN", 10064, "Host is down.")
    case 42 => Init("WSAEHOSTUNREACH", 10065, "No route to host.")
    case 43 => Init("WSAENOTEMPTY", 10066, "Directory not empty.")
    case 44 => Init("WSAEPROCLIM", 10067, "Too many processes.")
    case 45 => Init("WSAEUSERS", 10068, "User quota exceeded.")
    case 46 => Init("WSAEDQUOT", 10069, "Disk quota exceeded.")
    case 47 => Init("WSAESTALE", 10070, "Stale file handle reference.")
    case 48 => Init("WSAEREMOTE", 10071, "Item is remote.")
    case 49 => Init("WSASYSNOTREADY", 10091, "Network subsystem is unavailable.")
    case 50 => Init("WSAVERNOTSUPPORTED", 10092, "Winsock.dll version out of range.")
    case 51 => Init("WSANOTINITIALISED", 10093, "Successful WSAStartup not yet performed.")
    case 52 => Init("WSAEDISCON", 10101, "Graceful shutdown in progress.")
    case 53 => Init("WSAENOMORE", 10102, "No more results.")
    case 54 => Init("WSAECANCELLED", 10103, "Call has been canceled.")
    case 55 => Init("WSAEINVALIDPROCTABLE", 10104, "Procedure call table is invalid.")
    case 56 => Init("WSAEINVALIDPROVIDER", 10105, "Service provider is invalid.")
    case 57 => Init("WSAEPROVIDERFAILEDINIT", 10106, "Service provider failed to initialize.")
    case 58 => Init("WSASYSCALLFAILURE", 10107, "System call failure.")
    case 59 => Init("WSASERVICE_NOT_FOUND", 10108, "Service not found.")
    case 60 => Init("WSATYPE_NOT_FOUND", 10109, "Class type not found.")
    case 61 => Init("WSA_E_NO_MORE", 10110, "No more results.")
    case 62 => Init("WSA_E_CANCELLED", 10111, "Call was canceled.")
    case 63 => Init("WSAEREFUSED", 10112, "Database query was refused.")
    case 64 => Init("WSAHOST_NOT_FOUND", 11001, "Host not found.")
    case 65 => Init("WSATRY_AGAIN", 11002, "Nonauthoritative host not found.")
    case 66 => Init("WSANO_RECOVERY", 11003, "This is a nonrecoverable error.")
    case 67 => Init("WSANO_DATA", 11004, "Valid name, no data record of requested type.")
    case 68 => Init("WSA_QOS_RECEIVERS", 11005, "QoS receivers.")
    case 69 => Init("WSA_QOS_SENDERS", 11006, "QoS senders.")
    case 70 => Init("WSA_QOS_NO_SENDERS", 11007, "No QoS senders.")
    case 71 => Init("WSA_QOS_NO_RECEIVERS", 11008, "QoS no receivers.")
    case 72 => Init("WSA_QOS_REQUEST_CONFIRMED", 11009, "QoS request confirmed.")
    case 73 => Init("WSA_QOS_ADMISSION_FAILURE", 11010, "QoS admission error.")
    case 74 => Init("WSA_QOS_POLICY_FAILURE", 11011, "QoS policy failure.")
    case 75 => Init("WSA_QOS_BAD_STYLE", 11012, "QoS bad style.")
    case 76 => Init("WSA_QOS_BAD_OBJECT", 11013, "QoS bad object.")
    case 77 => Init("WSA_QOS_TRAFFIC_CTRL_ERROR", 11014, "QoS traffic control error.")
    case 78 => Init("WSA_QOS_GENERIC_ERROR", 11015, "QoS generic error.")
    case 79 => Init("WSA_QOS_ESERVICETYPE", 11016, "QoS service type error.")
    case 80 => Init("WSA_QOS_EFLOWSPEC", 11017, "QoS flowspec error.")
    case 81 => Init("WSA_QOS_EPROVSPECBUF", 11018, "Invalid QoS provider buffer.")
    case 82 => Init("WSA_QOS_EFILTERSTYLE", 11019, "Invalid QoS filter style.")
    case 83 => Init("WSA_QOS_EFILTERTYPE", 11020, "Invalid QoS filter type.")
    case 84 => Init("WSA_QOS_EFILTERCOUNT", 11021, "Incorrect QoS filter count.")
    case 85 => Init("WSA_QOS_EOBJLENGTH", 11022, "Invalid QoS object length.")
    case 86 => Init("WSA_QOS_EFLOWCOUNT", 11023, "Incorrect QoS flow count.")
    case 87 => Init("WSA_QOS_EUNKOWNPSOBJ", 11024, "Unrecognized QoS object.")
    case 88 => Init("WSA_QOS_EPOLICYOBJ", 11025, "Invalid QoS policy object.")
    case 89 => Init("WSA_QOS_EFLOWDESC", 11026, "Invalid QoS flow descriptor.")
    case 90 => Init("WSA_QOS_EPSFLOWSPEC", 11027, "Invalid QoS provider-specific flowspec.")
    case 91 => Init("WSA_QOS_EPSFILTERSPEC", 11028, "Invalid QoS provider-specific filterspec.")
    case 92 => Init("WSA_QOS_ESDMODEOBJ", 11029, "Invalid QoS shape discard mode object.")
    case 93 => Init("WSA_QOS_ESHAPERATEOBJ", 11030, "Invalid QoS shaping rate object.")
    case 94 => Init("WSA_QOS_RESERVED_PETYPE", 11031, "Reserved policy QoS element type.")
    case _ => Blank
  }

  function ErrnoStringAt(i: int): string { ErrnoText(ErrnoSlotAt(i)) }
  function OpenSslStringAt(i: int): string { NumberedText(OpenSslSlotAt(i)) }
  function X509StringAt(i: int): string { NumberedText(X509SlotAt(i)) }
  function WindowsStringAt(i: int): string { NumberedText(WindowsSlotAt(i)) }

  /** The contents of the arrays, slot by slot up to their declared sizes. */
  const ErrnoCodes: seq<int> := seq(ErrnoSlots, ErrnoCodeAt)
  const ErrnoStrings: seq<string> := seq(ErrnoSlots, ErrnoStringAt)
  const OpenSslCodes: seq<int> := seq(OpenSslSlots, OpenSslCodeAt)
  const OpenSslStrings: seq<string> := seq(OpenSslSlots, OpenSslStringAt)
  const X509Codes: seq<int> := seq(X509Slots, X509CodeAt)
  const X509Strings: seq<string> := seq(X509Slots, X509StringAt)
  const WindowsCodesAsWritten: seq<int> := seq(WindowsSlots, WindowsCodeAsWrittenAt)
  const WindowsCodes: seq<int> := seq(WindowsSlots, WindowsCodeAt)
  const WindowsStrings: seq<string> := seq(WindowsSlots, WindowsStringAt)
}
